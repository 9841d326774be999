/**
 What the recovered media clock answers over whole runs.

 CRF packets are sent 160 ticks apart, as the talker does.  They arrive in order,
 some possibly lost, interleaved in any way with questions.  The answers from the
 first recovered tick on are all on the talker's grid and strictly increasing, and
 if no packet is lost they are every tick of the grid, one after the other.
 */
module MediaClockRuns {
  import opened MediaClock
  import opened Words
  import CrfTalker

  // First timestamp of the first packet sent, what is added to every timestamp,
  // and whether the listener is in talker mode.
  datatype Env = Env(ts0: nat, mtt: nat, talker: bool) {
    function Base(): nat {
      ts0 + mtt
    }
  }

  // A packet arrives, after `lost` others did not; or the clock is asked.
  datatype Event = Arrive(lost: nat) | Question

  // The clock, the packets sent so far, and the answers from the first recovered tick
  // on.  In talker mode the tick that arms the transmit timer is taken off the queue on
  // the first arrival without becoming the previous timestamp; it is the first answer.
  datatype Run = Run(clock: State, sent: nat, log: seq<nat>)

  // The grid: tick k after the first one of the first packet sent.
  function Grid(base: nat, k: nat): nat {
    base + k * PERIOD
  }

  function Step(v: Env, r: Run, e: Event): Run {
    match e
    case Arrive(lost) =>
      var c := Recover(r.clock, Grid(v.ts0, TICKS_PER_PDU * (r.sent + lost)), v.mtt);
      if v.talker && r.sent == 0 && c.queue != [] then
        Run(c.(queue := c.queue[1..]), lost + 1, [c.queue[0]])
      else
        Run(c, r.sent + lost + 1, r.log)
    case Question =>
      var a := Ask(r.clock);
      Run(a.next, r.sent, if r.log != [] || r.clock.queue != [] then r.log + [a.ts] else [])
  }

  function After(v: Env, start: State, events: seq<Event>): Run
    decreases |events|
  {
    if events == [] then Run(start, 0, [])
    else Step(v, After(v, start, events[..|events| - 1]), events[|events| - 1])
  }

  predicate OnGrid(base: nat, ts: nat) {
    ts >= base && (ts - base) % PERIOD == 0
  }

  predicate Increasing(s: seq<nat>) {
    forall i, j :: 0 <= i < j < |s| ==> s[i] < s[j]
  }

  predicate AllOnGrid(base: nat, s: seq<nat>) {
    forall i :: 0 <= i < |s| ==> OnGrid(base, s[i])
  }

  function Last(s: seq<nat>): nat
    requires s != []
  {
    s[|s| - 1]
  }

  // ---- What one packet puts into the queue ----------------------------------

  // Every admitted tick is one of the packet's and later than the clock.
  lemma {:induction false} RecoveredOnGrid(v: Env, m: nat, prev: nat, i: nat)
    requires i <= TICKS_PER_PDU
    requires Grid(v.Base(), TICKS_PER_PDU * (m + 1)) < U64
    ensures var r := Recovered(Grid(v.ts0, TICKS_PER_PDU * m), v.mtt, prev, i);
      && Increasing(r)
      && AllOnGrid(v.Base(), r)
      && (forall k :: 0 <= k < |r| ==>
           r[k] > prev && Grid(v.Base(), TICKS_PER_PDU * m + i) <= r[k] < Grid(v.Base(), TICKS_PER_PDU * (m + 1)))
    decreases TICKS_PER_PDU - i
  {
    if i < TICKS_PER_PDU {
      RecoveredOnGrid(v, m, prev, i + 1);
      TickIsGrid(v, m, i);
    }
  }

  lemma TickIsGrid(v: Env, m: nat, i: nat)
    requires i < TICKS_PER_PDU
    requires Grid(v.Base(), TICKS_PER_PDU * (m + 1)) < U64
    ensures Tick(Grid(v.ts0, TICKS_PER_PDU * m), i, v.mtt) == Grid(v.Base(), TICKS_PER_PDU * m + i)
    ensures OnGrid(v.Base(), Grid(v.Base(), TICKS_PER_PDU * m + i))
  {
  }

  // The consecutive ticks lo, ..., hi - 1 of the grid.
  function Ticks(base: nat, lo: nat, hi: nat): seq<nat>
    decreases hi - lo
  {
    if lo >= hi then [] else [Grid(base, lo)] + Ticks(base, lo + 1, hi)
  }

  function Max(a: nat, b: nat): nat {
    if a < b then b else a
  }

  // With the clock between ticks floor - 1 and floor, exactly the ticks from
  // floor on are admitted.
  lemma {:induction false} RecoveredTicks(v: Env, m: nat, prev: nat, floor: nat, i: nat)
    requires i <= TICKS_PER_PDU
    requires Grid(v.Base(), TICKS_PER_PDU * (m + 1)) < U64
    requires prev < Grid(v.Base(), floor) && (floor > 0 ==> prev >= Grid(v.Base(), floor - 1))
    ensures Recovered(Grid(v.ts0, TICKS_PER_PDU * m), v.mtt, prev, i)
      == Ticks(v.Base(), Max(floor, TICKS_PER_PDU * m + i), TICKS_PER_PDU * (m + 1))
    decreases TICKS_PER_PDU - i
  {
    if i < TICKS_PER_PDU {
      RecoveredTicks(v, m, prev, floor, i + 1);
      TickIsGrid(v, m, i);
    }
  }

  // ---- With losses ----------------------------------------------------------

  predicate Sound(base: nat, r: Run) {
    && Increasing(r.log) && AllOnGrid(base, r.log)
    && Increasing(r.clock.queue) && AllOnGrid(base, r.clock.queue)
    && (r.clock.queue != [] ==>
         && r.clock.prev < r.clock.queue[0]
         && Last(r.clock.queue) < Grid(base, TICKS_PER_PDU * r.sent))
    && (r.log != [] ==> r.clock.prev <= Last(r.log))
    && (r.log != [] && r.clock.queue != [] ==> Last(r.log) < r.clock.queue[0])
    && (r.log != [] && r.clock.queue == [] ==> r.clock.prev == Last(r.log))
    && (r.sent == 0 ==> r.log == [] && r.clock.queue == [])
  }

  lemma GridMonotone(base: nat, a: nat, b: nat)
    requires a <= b
    ensures Grid(base, a) <= Grid(base, b)
  {
  }

  lemma AppendIncreasing(base: nat, a: seq<nat>, b: seq<nat>)
    requires Increasing(a) && Increasing(b) && AllOnGrid(base, a) && AllOnGrid(base, b)
    requires a != [] && b != [] ==> Last(a) < b[0]
    ensures Increasing(a + b) && AllOnGrid(base, a + b)
  {
  }

  // The clock once packet m has been recovered, before the timer is armed.
  predicate Joined(v: Env, r: Run, m: nat, c: State) {
    && Increasing(c.queue) && AllOnGrid(v.Base(), c.queue)
    && c.prev == r.clock.prev
    && (c.queue != [] ==>
         c.prev < c.queue[0] && Last(c.queue) < Grid(v.Base(), TICKS_PER_PDU * (m + 1)))
    && (r.log != [] && c.queue != [] ==> Last(r.log) < c.queue[0])
    && (c.queue == [] ==> r.clock.queue == [])
    && (c.prev < v.Base() ==> |c.queue| > 1)
  }

  // What packet m adds to the queue, all of it later than packet m - 1.
  lemma RecentTicks(v: Env, r: Run, m: nat) returns (recent: seq<nat>)
    requires Sound(v.Base(), r) && m >= r.sent
    requires Grid(v.Base(), TICKS_PER_PDU * (m + 1)) < U64
    ensures Recover(r.clock, Grid(v.ts0, TICKS_PER_PDU * m), v.mtt)
      == r.clock.(queue := r.clock.queue + recent)
    ensures Increasing(recent) && AllOnGrid(v.Base(), recent)
    ensures var mid, end := Grid(v.Base(), TICKS_PER_PDU * m), Grid(v.Base(), TICKS_PER_PDU * (m + 1));
      && mid <= end
      && (r.clock.queue != [] ==> Last(r.clock.queue) < mid)
      && forall k :: 0 <= k < |recent| ==> recent[k] > r.clock.prev && mid <= recent[k] < end
    ensures r.clock.prev < v.Base() ==> |recent| > 1
  {
    recent := Recovered(Grid(v.ts0, TICKS_PER_PDU * m), v.mtt, r.clock.prev, 0);
    if r.clock.prev < v.Base() {
      FirstArrival(v, m, r.clock.prev);
    }
    hide Recovered, Increasing, AllOnGrid;
    RecoveredOnGrid(v, m, r.clock.prev, 0);
    GridMonotone(v.Base(), TICKS_PER_PDU * r.sent, TICKS_PER_PDU * m);
  }

  lemma RecoverJoins(v: Env, r: Run, lost: nat)
    requires Sound(v.Base(), r)
    requires Grid(v.Base(), TICKS_PER_PDU * (r.sent + lost + 1)) < U64
    ensures Joined(v, r, r.sent + lost,
              Recover(r.clock, Grid(v.ts0, TICKS_PER_PDU * (r.sent + lost)), v.mtt))
  {
    hide Recover, Grid, OnGrid, Increasing, AllOnGrid, Env.Base;
    var m := r.sent + lost;
    var recent := RecentTicks(v, r, m);
    JoinQueue(v.Base(), r.clock.queue, recent, r.clock.prev,
              Grid(v.Base(), TICKS_PER_PDU * m), Grid(v.Base(), TICKS_PER_PDU * (m + 1)));
  }

  lemma JoinQueue(base: nat, a: seq<nat>, b: seq<nat>, prev: nat, mid: nat, end: nat)
    requires Increasing(a) && Increasing(b) && AllOnGrid(base, a) && AllOnGrid(base, b)
    requires a != [] ==> prev < a[0] && Last(a) < mid
    requires mid <= end
    requires forall k :: 0 <= k < |b| ==> b[k] > prev && mid <= b[k] < end
    ensures Increasing(a + b) && AllOnGrid(base, a + b)
    ensures a + b != [] ==>
      && prev < (a + b)[0] && Last(a + b) < end
      && (a == [] ==> a + b == b && b[0] > prev)
      && (a != [] ==> (a + b)[0] == a[0])
  {
  }

  lemma ArriveSound(v: Env, r: Run, lost: nat)
    requires Sound(v.Base(), r)
    requires v.talker && r.sent == 0 ==> r.clock.prev < v.Base()
    requires Grid(v.Base(), TICKS_PER_PDU * (r.sent + lost + 1)) < U64
    ensures Sound(v.Base(), Step(v, r, Arrive(lost)))
  {
    hide Recovered, Grid, OnGrid, Recover;
    var m := r.sent + lost;
    var c := Recover(r.clock, Grid(v.ts0, TICKS_PER_PDU * m), v.mtt);
    RecoverJoins(v, r, lost);
    if v.talker && r.sent == 0 {
      DropFirst(v.Base(), c.queue);
    }
  }

  lemma DropFirst(base: nat, q: seq<nat>)
    requires |q| > 1 && Increasing(q) && AllOnGrid(base, q)
    ensures Increasing(q[1..]) && AllOnGrid(base, q[1..])
    ensures Increasing([q[0]]) && AllOnGrid(base, [q[0]])
    ensures q[0] < q[1..][0] && Last(q[1..]) == Last(q)
  {
  }

  lemma FirstArrival(v: Env, m: nat, prev: nat)
    requires Grid(v.Base(), TICKS_PER_PDU * (m + 1)) < U64 && prev < v.Base()
    ensures |Recovered(Grid(v.ts0, TICKS_PER_PDU * m), v.mtt, prev, 0)| > 1
  {
  }

  lemma QuestionSound(v: Env, r: Run)
    requires Sound(v.Base(), r) && r.clock.prev + PERIOD < U64
    ensures Sound(v.Base(), Step(v, r, Question))
  {
    var a := Ask(r.clock);
    if r.clock.queue == [] {
      NextOnGrid(v.Base(), r.clock.prev);
    }
    hide OnGrid, Grid;
    if r.log != [] || r.clock.queue != [] {
      AppendIncreasing(v.Base(), r.log, [a.ts]);
      assert Last(r.log + [a.ts]) == a.ts;
      assert forall i :: 0 <= i < |a.next.queue| ==> a.next.queue[i] == r.clock.queue[i + 1];
    }
  }

  lemma NextOnGrid(base: nat, ts: nat)
    ensures OnGrid(base, ts) ==> OnGrid(base, ts + PERIOD)
  {
  }

  // ---- Runs with losses -----------------------------------------------------

  function Sent(events: seq<Event>): nat
    decreases |events|
  {
    if events == [] then 0
    else
      Sent(events[..|events| - 1])
      + match events[|events| - 1] case Arrive(lost) => lost + 1 case Question => 0
  }

  predicate OnlyQuestions(events: seq<Event>) {
    forall i :: 0 <= i < |events| ==> events[i].Question?
  }

  // The clock has not freewheeled into the talker's timestamps when the first packet
  // arrives.
  predicate Early(v: Env, start: State, events: seq<Event>) {
    forall n :: 0 <= n <= |events| && OnlyQuestions(events[..n]) ==> start.prev + n * PERIOD < v.Base()
  }

  // Nothing reaches the end of 64 bits; and in talker mode, where nobody asks before the
  // timer is armed, the first packet finds the clock behind it.
  predicate Timely(v: Env, start: State, events: seq<Event>) {
    && start.queue == []
    && start.prev + |events| * PERIOD < U64
    && Grid(v.Base(), TICKS_PER_PDU * Sent(events) + |events|) < U64
    && (v.talker ==> Early(v, start, events))
  }

  lemma EarlyBefore(v: Env, start: State, events: seq<Event>)
    requires Early(v, start, events) && events != []
    ensures Early(v, start, events[..|events| - 1])
  {
    var before := events[..|events| - 1];
    assert forall n :: 0 <= n <= |before| ==> before[..n] == events[..n];
  }

  lemma TimelyBefore(v: Env, start: State, events: seq<Event>)
    requires Timely(v, start, events) && events != []
    ensures Timely(v, start, events[..|events| - 1])
  {
    var before := events[..|events| - 1];
    GridMonotone(v.Base(), TICKS_PER_PDU * Sent(before) + |before|, TICKS_PER_PDU * Sent(events) + |events|);
    if v.talker {
      EarlyBefore(v, start, events);
    }
  }

  // How far the clock can have come after n events.
  predicate Reached(v: Env, start: State, events: seq<Event>, r: Run) {
    && r.sent == Sent(events)
    && (r.clock.prev <= start.prev + |events| * PERIOD
        || r.clock.prev <= Grid(v.Base(), TICKS_PER_PDU * r.sent + |events|))
    && (r.sent == 0 ==> OnlyQuestions(events) && r.clock.prev == start.prev + |events| * PERIOD)
  }

  // Whatever is lost and however arrivals and questions interleave, the answers
  // from the first recovered tick on are strictly increasing ticks of the grid.
  lemma {:induction false} AnswersOnGrid(v: Env, start: State, events: seq<Event>)
    requires Timely(v, start, events)
    ensures var r := After(v, start, events);
      Sound(v.Base(), r) && Reached(v, start, events, r)
    decreases |events|
  {
    if events != [] {
      TimelyBefore(v, start, events);
      AnswersOnGrid(v, start, events[..|events| - 1]);
      hide Sound, Recover, Grid;
      StepReaches(v, start, events);
    }
  }

  // A clock still without a packet is where the questions have taken it.
  lemma EarlyPrev(v: Env, start: State, events: seq<Event>, r: Run)
    requires Early(v, start, events) && Reached(v, start, events, r)
    ensures r.sent == 0 ==> r.clock.prev < v.Base()
  {
    assert events[..|events|] == events;
  }

  lemma ArriveReaches(v: Env, start: State, events: seq<Event>, r: Run)
    requires Timely(v, start, events) && events != [] && events[|events| - 1].Arrive?
    requires Sound(v.Base(), r) && Reached(v, start, events[..|events| - 1], r)
    ensures var t := Step(v, r, events[|events| - 1]);
      Sound(v.Base(), t) && Reached(v, start, events, t)
  {
    var before, lost := events[..|events| - 1], events[|events| - 1].lost;
    var horizon := TICKS_PER_PDU * Sent(events) + |events|;
    GridMonotone(v.Base(), TICKS_PER_PDU * (r.sent + lost + 1), horizon);
    GridMonotone(v.Base(), TICKS_PER_PDU * r.sent + |before|, horizon);
    if v.talker {
      EarlyBefore(v, start, events);
      EarlyPrev(v, start, before, r);
    }
    hide Recover, Grid, Sound, Step, Early;
    PrevStays(v, r, lost);
    ArriveSound(v, r, lost);
  }

  lemma QuestionReaches(v: Env, start: State, events: seq<Event>, r: Run)
    requires Timely(v, start, events) && events != [] && events[|events| - 1].Question?
    requires Sound(v.Base(), r) && Reached(v, start, events[..|events| - 1], r)
    ensures var t := Step(v, r, events[|events| - 1]);
      Sound(v.Base(), t) && Reached(v, start, events, t)
  {
    var before := events[..|events| - 1];
    NoWrap(v, start, events, r);
    QuestionMoves(v.Base(), r, |before|);
    hide Grid, Sound, Early;
    QuestionSound(v, r);
  }

  // One more period does not reach the end of 64 bits.
  lemma NoWrap(v: Env, start: State, events: seq<Event>, r: Run)
    requires Timely(v, start, events) && events != [] && events[|events| - 1].Question?
    requires Reached(v, start, events[..|events| - 1], r)
    ensures r.clock.prev + PERIOD < U64
  {
    var before := events[..|events| - 1];
    GridMonotone(v.Base(), TICKS_PER_PDU * r.sent + |before| + 1, TICKS_PER_PDU * Sent(events) + |events|);
    GridNext(v.Base(), TICKS_PER_PDU * r.sent + |before| + 1);
    hide Grid, Early;
  }

  lemma StepReaches(v: Env, start: State, events: seq<Event>)
    requires Timely(v, start, events) && events != []
    requires var r := After(v, start, events[..|events| - 1]);
      Sound(v.Base(), r) && Reached(v, start, events[..|events| - 1], r)
    ensures var r := After(v, start, events);
      Sound(v.Base(), r) && Reached(v, start, events, r)
  {
    var r := After(v, start, events[..|events| - 1]);
    hide Sound, Reached, Timely, Step;
    match events[|events| - 1]
    case Arrive(lost) => ArriveReaches(v, start, events, r);
    case Question => QuestionReaches(v, start, events, r);
  }

  lemma PrevStays(v: Env, r: Run, lost: nat)
    ensures var t := Step(v, r, Arrive(lost));
      t.clock.prev == r.clock.prev && t.sent == r.sent + lost + 1
  {
  }

  lemma QuestionMoves(base: nat, r: Run, n: nat)
    requires Sound(base, r) && r.clock.prev + PERIOD < U64
    ensures var prev := Ask(r.clock).next.prev;
      && (r.clock.queue == [] ==> prev == r.clock.prev + PERIOD)
      && (r.clock.queue != [] ==> prev <= Grid(base, TICKS_PER_PDU * r.sent + n + 1))
    ensures Grid(base, TICKS_PER_PDU * r.sent + n) + PERIOD == Grid(base, TICKS_PER_PDU * r.sent + n + 1)
    ensures r.sent == 0 ==> r.clock.queue == []
  {
    GridMonotone(base, TICKS_PER_PDU * r.sent, TICKS_PER_PDU * r.sent + n + 1);
  }

  lemma GridNext(base: nat, n: nat)
    ensures n > 0 ==> Grid(base, n - 1) + PERIOD == Grid(base, n)
  {
  }

  // ---- Runs without losses --------------------------------------------------

  predicate NoneLost(events: seq<Event>) {
    forall i :: 0 <= i < |events| ==> events[i] != Question ==> events[i] == Arrive(0)
  }

  // The first tick of the grid that is later than the clock.
  function Floor(base: nat, prev: nat): nat {
    if prev < base then 0 else (prev - base) / PERIOD + 1
  }

  lemma FloorIs(base: nat, prev: nat)
    ensures prev < Grid(base, Floor(base, prev))
    ensures Floor(base, prev) > 0 ==> prev >= Grid(base, Floor(base, prev) - 1)
    ensures Floor(base, prev) <= Floor(base, prev + PERIOD)
    ensures prev < base ==> Floor(base, prev) == 0
  {
  }

  lemma FloorOfTick(base: nat, n: nat)
    ensures Floor(base, Grid(base, n)) == n + 1
  {
  }

  // The answers are the consecutive ticks of the grid from `first` on, and the queue holds
  // the ticks still to come from what has arrived.  Before the first answer that is the
  // next tick after the clock; afterwards the clock is at the last answer, unless that
  // answer only armed the timer.
  predicate Complete(base: nat, r: Run, first: nat) {
    var next := first + |r.log|;
    && r.log == Ticks(base, first, next)
    && r.clock.queue == Ticks(base, next, TICKS_PER_PDU * r.sent)
    && (r.log == [] ==> first == Floor(base, r.clock.prev))
    && (r.log != [] ==> r.clock.prev == Grid(base, next - 1) || (r.clock.queue != [] && r.clock.prev < base))
    && (r.sent == 0 ==> r.log == [])
  }

  lemma {:induction false} TicksLength(base: nat, lo: nat, end: nat)
    ensures |Ticks(base, lo, end)| == if lo < end then end - lo else 0
    decreases end - lo
  {
    if lo < end {
      TicksLength(base, lo + 1, end);
    }
  }

  lemma {:induction false} TicksJoin(base: nat, lo: nat, mid: nat, end: nat)
    requires lo <= mid <= end
    ensures Ticks(base, lo, end) == Ticks(base, lo, mid) + Ticks(base, mid, end)
    decreases mid - lo
  {
    if lo < mid {
      TicksJoin(base, lo + 1, mid, end);
    }
  }

  lemma TicksHead(base: nat, lo: nat, end: nat)
    ensures Ticks(base, lo, end) == [] ==> Ticks(base, lo + 1, end) == []
    ensures Ticks(base, lo, end) != [] ==>
      Ticks(base, lo, end)[0] == Grid(base, lo) && Ticks(base, lo, end)[1..] == Ticks(base, lo + 1, end)
  {
  }

  lemma TicksSnoc(base: nat, lo: nat, n: nat)
    requires lo <= n
    ensures Ticks(base, lo, n + 1) == Ticks(base, lo, n) + [Grid(base, n)]
  {
    TicksJoin(base, lo, n, n + 1);
    assert Ticks(base, n, n + 1) == [Grid(base, n)] + Ticks(base, n + 1, n + 1);
  }

  // With the queue complete up to packet m, recovering packet m completes it up
  // to packet m + 1.
  lemma QueueGrows(v: Env, q: seq<nat>, prev: nat, n: nat, m: nat)
    requires Grid(v.Base(), TICKS_PER_PDU * (m + 1)) < U64
    requires q == Ticks(v.Base(), n, TICKS_PER_PDU * m)
    requires Floor(v.Base(), prev) == n || (q != [] && prev < v.Base())
    ensures q + Recovered(Grid(v.ts0, TICKS_PER_PDU * m), v.mtt, prev, 0)
      == Ticks(v.Base(), n, TICKS_PER_PDU * (m + 1))
  {
    hide Recovered, Grid, Ticks, Floor, Env.Base;
    FloorIs(v.Base(), prev);
    var floor := Floor(v.Base(), prev);
    var lo := TICKS_PER_PDU * m;
    RecoveredTicks(v, m, prev, floor, 0);
    TicksLength(v.Base(), n, lo);
    if n <= lo {
      TicksJoin(v.Base(), n, lo, TICKS_PER_PDU * (m + 1));
    }
  }

  // The queue once packet m = r.sent has been recovered.
  lemma ArriveQueue(v: Env, r: Run, first: nat)
    requires Complete(v.Base(), r, first)
    requires Grid(v.Base(), TICKS_PER_PDU * (r.sent + 1)) < U64
    ensures Recover(r.clock, Grid(v.ts0, TICKS_PER_PDU * r.sent), v.mtt)
      == r.clock.(queue := Ticks(v.Base(), first + |r.log|, TICKS_PER_PDU * (r.sent + 1)))
  {
    hide Recovered, Grid, Floor, Ticks, Env.Base;
    var base, next := v.Base(), first + |r.log|;
    if r.log != [] && r.clock.prev == Grid(base, next - 1) {
      FloorOfTick(base, next - 1);
    }
    QueueGrows(v, r.clock.queue, r.clock.prev, next, r.sent);
  }

  lemma ArriveComplete(v: Env, r: Run, first: nat)
    requires Complete(v.Base(), r, first)
    requires v.talker && r.sent == 0 ==> r.clock.prev < v.Base()
    requires Grid(v.Base(), TICKS_PER_PDU * (r.sent + 1)) < U64
    ensures Complete(v.Base(), Step(v, r, Arrive(0)), first)
  {
    hide Recover, Recovered, Grid, Floor, Ticks, Env.Base;
    var base, next, end := v.Base(), first + |r.log|, TICKS_PER_PDU * (r.sent + 1);
    ArriveQueue(v, r, first);
    TicksLength(base, next, TICKS_PER_PDU * r.sent);
    TicksLength(base, next, end);
    if v.talker && r.sent == 0 {
      ArmedComplete(base, r.clock.prev, first, end);
    }
  }

  // Taking the first tick to arm the timer.
  lemma ArmedComplete(base: nat, prev: nat, first: nat, end: nat)
    requires first == Floor(base, prev) && prev < base && end > 1
    ensures first == 0
    ensures Ticks(base, 0, end) != [] && Ticks(base, 0, end)[0] == Grid(base, 0)
    ensures Ticks(base, 0, end)[1..] == Ticks(base, 1, end) != []
    ensures [Grid(base, 0)] == Ticks(base, 0, 1)
  {
    TicksHead(base, 0, end);
    TicksSnoc(base, 0, 0);
    assert Ticks(base, 0, 0) == [] && [] + [Grid(base, 0)] == [Grid(base, 0)];
  }

  // A question keeps the first tick, unless none has been answered yet and none is there.
  lemma QuestionComplete(v: Env, r: Run, first: nat) returns (now: nat)
    requires Complete(v.Base(), r, first) && r.clock.prev + PERIOD < U64
    ensures Complete(v.Base(), Step(v, r, Question), now)
    ensures r.log != [] || r.clock.queue != [] ==> now == first
  {
    hide Ticks, Grid, Floor, Env.Base;
    var base, next, end := v.Base(), first + |r.log|, TICKS_PER_PDU * r.sent;
    TicksHead(base, next, end);
    TicksLength(base, next, end);
    now := first;
    if r.log == [] && r.clock.queue == [] {
      now := Floor(base, r.clock.prev + PERIOD);
      FloorIs(base, r.clock.prev);
      TicksLength(base, now, end);
      TicksLength(base, now, now);
    } else {
      TicksSnoc(base, first, next);
      GridNext(base, next);
      if r.clock.queue == [] {
        AskedDry(base, r, first);
      }
    }
  }

  // An empty queue after the first answer: the clock is at the last answer.
  lemma AskedDry(base: nat, r: Run, first: nat)
    requires Complete(base, r, first) && r.log != [] && r.clock.queue == []
    ensures r.clock.prev == Grid(base, first + |r.log| - 1)
  {
  }

  // Without a packet lost the answers from the first recovered tick on are every tick of
  // the grid in turn, whether they were recovered or freewheeled.  A clock that has not
  // freewheeled past the talker starts with the first tick of all.
  lemma {:induction false} AnswersAreTicks(v: Env, start: State, events: seq<Event>) returns (first: nat)
    requires Timely(v, start, events) && NoneLost(events)
    ensures Complete(v.Base(), After(v, start, events), first)
    ensures Early(v, start, events) ==> first == 0
    decreases |events|
  {
    if events == [] {
      first := Floor(v.Base(), start.prev);
      assert Ticks(v.Base(), first, first) == [] && Ticks(v.Base(), first, 0) == [];
      assert Early(v, start, events) ==> OnlyQuestions(events[..0]);
    } else {
      var before := events[..|events| - 1];
      var r := After(v, start, before);
      TimelyBefore(v, start, events);
      if Early(v, start, events) {
        EarlyBefore(v, start, events);
      }
      first := AnswersAreTicks(v, start, before);
      AnswersOnGrid(v, start, before);
      first := TicksOn(v, start, events, r, first);
    }
  }

  // One more event.
  lemma TicksOn(v: Env, start: State, events: seq<Event>, r: Run, first: nat) returns (now: nat)
    requires Timely(v, start, events) && NoneLost(events) && events != []
    requires Complete(v.Base(), r, first) && Reached(v, start, events[..|events| - 1], r)
    requires Early(v, start, events) ==> first == 0
    ensures Complete(v.Base(), Step(v, r, events[|events| - 1]), now)
    ensures Early(v, start, events) ==> now == 0
  {
    var before := events[..|events| - 1];
    if Early(v, start, events) {
      EarlyBefore(v, start, events);
      EarlyPrev(v, start, before, r);
    }
    match events[|events| - 1]
    case Arrive(lost) =>
      GridMonotone(v.Base(), TICKS_PER_PDU * (r.sent + 1), TICKS_PER_PDU * Sent(events) + |events|);
      hide Complete, Step, Grid, Early;
      now := first;
      ArriveComplete(v, r, first);
    case Question =>
      NoWrap(v, start, events, r);
      if Early(v, start, events) {
        StillEarly(v, start, events, r, first);
      }
      hide Complete, Grid, Early;
      now := QuestionComplete(v, r, first);
      CompleteFirst(v.Base(), Step(v, r, Question), now);
  }

  // Before the first answer the first tick is the next one after the clock.
  lemma CompleteFirst(base: nat, r: Run, first: nat)
    requires Complete(base, r, first)
    ensures r.log == [] ==> first == Floor(base, r.clock.prev)
  {
  }

  // An early clock is asked either with ticks in the queue or with room to freewheel.
  lemma StillEarly(v: Env, start: State, events: seq<Event>, r: Run, first: nat)
    requires Timely(v, start, events) && events != [] && events[|events| - 1].Question?
    requires Complete(v.Base(), r, first) && first == 0
    requires Reached(v, start, events[..|events| - 1], r) && Early(v, start, events)
    ensures r.log == [] && r.clock.queue == [] ==> Floor(v.Base(), r.clock.prev + PERIOD) == 0
    ensures r.log == [] && r.clock.queue == [] ==> Ask(r.clock).next.prev == r.clock.prev + PERIOD
  {
    NoWrap(v, start, events, r);
    if r.log == [] && r.clock.queue == [] {
      TicksLength(v.Base(), 0, TICKS_PER_PDU * r.sent);
      assert events == events[..|events|];
      assert OnlyQuestions(events);
    }
  }

  // Read off the log: answer k from the first recovered tick on is k periods after it, a
  // tick of the grid; and that tick is ts0 itself unless the clock had freewheeled past.
  lemma AnswerIs(v: Env, start: State, events: seq<Event>, k: nat) returns (first: nat)
    requires Timely(v, start, events) && NoneLost(events)
    requires k < |After(v, start, events).log|
    ensures After(v, start, events).log[k] == v.ts0 + v.mtt + (first + k) * PERIOD
    ensures Early(v, start, events) ==> first == 0
  {
    hide After, Early, Ticks, Timely, NoneLost, Floor, Grid;
    first := AnswersAreTicks(v, start, events);
    LogIs(v.Base(), After(v, start, events).log, first, k);
  }

  lemma LogIs(base: nat, log: seq<nat>, first: nat, k: nat)
    requires log == Ticks(base, first, first + |log|) && k < |log|
    ensures log[k] == base + (first + k) * PERIOD
  {
    hide Ticks;
    TickAt(base, first, first + |log|, k);
  }

  lemma {:induction false} TickAt(base: nat, lo: nat, end: nat, k: nat)
    requires lo + k < end
    ensures k < |Ticks(base, lo, end)| && Ticks(base, lo, end)[k] == Grid(base, lo + k)
    decreases k
  {
    if k > 0 {
      TickAt(base, lo + 1, end, k - 1);
    }
  }

  // The packets assumed here are the ones the CRF talker sends.
  lemma TalkerIsOnGrid(start: nat, mtt: nat, m: nat)
    ensures CrfTalker.PduAt(start, mtt, m).timestamps[0] == Grid(start + mtt, TICKS_PER_PDU * m)
  {
    assert CrfTalker.TX_INTERVAL == TICKS_PER_PDU * PERIOD;
    var crfTime := start + m * CrfTalker.TX_INTERVAL + mtt;
    assert CrfTalker.Stamps(crfTime)[0] == crfTime;
    hide CrfTalker.Stamps;
  }
}
