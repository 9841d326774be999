/**
 The hardware listener: one captured clock edge for every CRF timestamp, the
 difference of the two steering the servo.

 Captured edges wait in a queue.  A read with a timeout is modelled by a queue
 that already holds what the read would have waited for; an empty queue is the
 read that times out.
 */
module EdgeListener {
  import opened Words
  import Servo = PiServo

  function Magnitude(x: int): nat {
    if x < 0 then -x else x
  }

  // Edge tolerance, timestamps in one packet, updates after which the clock is
  // no longer steered (zero: never).
  datatype Config = Config(servo: Servo.Config, tolerance: nat, perPdu: nat, freezeAfter: nat)

  datatype State = State(
    edges: seq<nat>,
    synchronized: bool,
    servo: Servo.State,
    updates: nat,
    misses: nat,
    dropped: nat,
    frozen: bool,
    paired: seq<(nat, nat)>,
    applied: seq<real>)

  datatype Search = Search(edges: seq<nat>, found: bool)

  // Drop edges older than the timestamp up to the first one within tolerance; an
  // edge too new is dropped as well, and ends the search.
  function Searched(edges: seq<nat>, ts: nat, tolerance: nat): Search {
    if edges == [] then Search([], false)
    else
      var delta := Signed(edges[0] - ts);
      if Magnitude(delta) <= tolerance then Search(edges[1..], true)
      else if delta < 0 then Searched(edges[1..], ts, tolerance)
      else Search(edges[1..], false)
  }

  predicate TooOld(edge: nat, ts: nat, tolerance: nat) {
    Signed(edge - ts) < -(tolerance as int)
  }

  predicate Within(edge: nat, ts: nat, tolerance: nat) {
    -(tolerance as int) <= Signed(edge - ts) <= tolerance
  }

  predicate TooNew(edge: nat, ts: nat, tolerance: nat) {
    Signed(edge - ts) > tolerance
  }

  // Every search, whatever is queued: it takes edges off the front, all of them too old
  // but the last, and succeeds if and only if the last one is within tolerance.  It fails
  // on an edge that is too new, which is gone as well, or when the queue runs dry.
  lemma {:induction false} SearchIs(edges: seq<nat>, ts: nat, tolerance: nat)
    ensures var r := Searched(edges, ts, tolerance);
      var n := |edges| - |r.edges|;
      && 0 <= n && r.edges == edges[n..]
      && (forall i :: 0 <= i < n - 1 ==> TooOld(edges[i], ts, tolerance))
      && (r.found ==> n > 0 && Within(edges[n - 1], ts, tolerance))
      && (!r.found ==>
            || (n > 0 && TooNew(edges[n - 1], ts, tolerance))
            || (r.edges == [] && forall i :: 0 <= i < n ==> TooOld(edges[i], ts, tolerance)))
  {
    hide Signed;
    if edges != [] && TooOld(edges[0], ts, tolerance) {
      SearchIs(edges[1..], ts, tolerance);
      var r := Searched(edges[1..], ts, tolerance);
      var n := |edges| - |r.edges|;
      assert forall i :: 0 < i <= n - 1 ==> edges[i] == edges[1..][i - 1];
    }
  }

  function Sampled(c: Config, s: State, edge: nat, ts: nat): State {
    var o := Servo.Step(c.servo, s.servo, Signed(edge - ts) as real, edge);
    var updates := s.updates + 1;
    s.(servo := o.next,
       updates := updates,
       paired := s.paired + [(edge, ts)],
       applied := if o.report != Servo.Unlocked && !s.frozen then s.applied + [o.ppb] else s.applied,
       frozen := s.frozen || (c.freezeAfter != 0 && updates == c.freezeAfter))
  }

  // One CRF timestamp.
  function Handled(c: Config, s: State, ts: nat): State {
    if !s.synchronized then
      var r := Searched(s.edges, ts, c.tolerance);
      s.(edges := r.edges, synchronized := r.found)
    else if s.edges == [] then s.(misses := s.misses + 1)
    else
      var edge := s.edges[0];
      var t := s.(edges := s.edges[1..]);
      if Magnitude(Signed(edge - ts)) > c.tolerance then
        t.(misses := t.misses + 1, synchronized := false)
      else Sampled(c, t, edge, ts)
  }

  function HandledAll(c: Config, s: State, stamps: seq<nat>): State
    decreases |stamps|
  {
    if stamps == [] then s else HandledAll(c, Handled(c, s, stamps[0]), stamps[1..])
  }

  // One edge for each timestamp of a packet.
  function EdgesOf(c: Config, packets: nat): nat {
    packets * c.perPdu
  }

  // The edges of the timestamps that were lost, by the 8-bit gap reported.
  function AfterDrop(c: Config, s: State, gap: nat): State {
    s.(dropped := s.dropped + gap, edges := Drained(s.edges, EdgesOf(c, gap)))
  }

  function Drained(edges: seq<nat>, stale: nat): seq<nat> {
    if stale <= |edges| then edges[stale..] else []
  }

  class Listener {
    const cfg: Config
    const servo: Servo.Servo
    var edges: seq<nat>
    var synchronized: bool
    var updates: nat
    var misses: nat
    var dropped: nat
    var frozen: bool
    ghost var paired: seq<(nat, nat)>
    var applied: seq<real>

    ghost predicate Valid()
      reads this, servo
    {
      servo.cfg == cfg.servo
    }

    ghost function View(): State
      reads this, servo
    {
      State(edges, synchronized, servo.View(), updates, misses, dropped, frozen, paired, applied)
    }

    constructor (c: Config)
      requires Servo.Creatable(c.servo)
      ensures Valid() && cfg == c && fresh(servo)
      ensures View() == State([], false, Servo.ZERO, 0, 0, 0, false, [], [])
    {
      cfg := c;
      servo := new Servo.Servo(c.servo);
      edges, synchronized, updates, misses, dropped, frozen := [], false, 0, 0, 0, false;
      paired, applied := [], [];
    }

    method Synchronize(ts: nat) returns (found: bool)
      modifies this`edges
      ensures var r := Searched(old(edges), ts, cfg.tolerance);
        edges == r.edges && found == r.found
      ensures |edges| <= |old(edges)| && edges == old(edges)[|old(edges)| - |edges|..]
      ensures var taken := old(edges)[..|old(edges)| - |edges|];
        && (forall i :: 0 <= i < |taken| - 1 ==> TooOld(taken[i], ts, cfg.tolerance))
        && (found ==> taken != [] && Within(taken[|taken| - 1], ts, cfg.tolerance))
        && (!found ==>
              || (taken != [] && TooNew(taken[|taken| - 1], ts, cfg.tolerance))
              || (edges == [] && forall i :: 0 <= i < |taken| ==> TooOld(taken[i], ts, cfg.tolerance)))
    {
      ghost var all := edges;
      SearchIs(all, ts, cfg.tolerance);
      hide Signed, TooOld, Within, TooNew;
      while edges != []
        invariant Searched(edges, ts, cfg.tolerance)
          == Searched(all, ts, cfg.tolerance)
        decreases |edges|
      {
        var delta := Signed(edges[0] - ts);
        edges := edges[1..];
        if Magnitude(delta) <= cfg.tolerance {
          return true;
        }
        if delta < 0 {
          continue;
        }
        return false;
      }
      return false;
    }

    method TakeEdge(ts: nat, edge: nat)
      requires Valid()
      modifies this, servo
      ensures Valid()
      ensures View() == Sampled(cfg, old(View()), edge, ts)
    {
      var phaseError := Signed(edge - ts);
      var ppb, report := servo.Sample(phaseError, edge);
      paired := paired + [(edge, ts)];
      if report != Servo.Unlocked && !frozen {
        applied := applied + [ppb];
      }
      updates := updates + 1;
      if cfg.freezeAfter != 0 && updates == cfg.freezeAfter && !frozen {
        frozen := true;
      }
    }

    method OnTimestamps(stamps: seq<nat>)
      requires Valid()
      modifies this, servo
      ensures Valid()
      ensures View() == HandledAll(cfg, old(View()), stamps)
    {
      ghost var start := View();
      var i := 0;
      while i < |stamps|
        invariant 0 <= i <= |stamps|
        invariant Valid()
        invariant HandledAll(cfg, View(), stamps[i..])
          == HandledAll(cfg, start, stamps)
      {
        assert stamps[i..][1..] == stamps[i + 1..];
        OneTimestamp(stamps[i]);
        i := i + 1;
      }
    }

    // The body of the loop over a packet's timestamps.
    method OneTimestamp(ts: nat)
      requires Valid()
      modifies this, servo
      ensures Valid()
      ensures View() == Handled(cfg, old(View()), ts)
    {
      hide Searched;
      if !synchronized {
        synchronized := Synchronize(ts);
      } else if edges == [] {
        misses := misses + 1;
      } else {
        var edge: int := edges[0];
        edges := edges[1..];
        if Magnitude(Signed(edge - ts)) > cfg.tolerance {
          misses := misses + 1;
          synchronized := false;
        } else {
          TakeEdge(ts, edge);
        }
      }
    }

    method OnDrop(expected: nat, actual: nat)
      requires expected < 256 && actual < 256
      modifies this`edges, this`dropped
      requires Valid()
      ensures Valid()
      ensures View() == AfterDrop(cfg, old(View()), (actual - expected) % 256)
    {
      var gap := (actual - expected) % 256;
      dropped := dropped + gap;
      var stale := EdgesOf(cfg, gap);
      hide EdgesOf;
      var i := 0;
      ghost var all := edges;
      while i < stale && edges != []
        invariant 0 <= i <= stale
        invariant i <= |all| && edges == all[i..]
        invariant dropped == old(dropped) + gap
      {
        edges := edges[1..];
        i := i + 1;
      }
    }
  }
}
