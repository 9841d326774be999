/**
 The talker that cuts a byte stream into NAL units, one to a packet, through a
 buffer that is filled by reads of any size, searched for start codes, and
 shifted down after every packet.
 */
module NalTalker {
  import opened NalStream

  const H264_HEADER_LEN := 4
  const FULL_HEADER_LEN := 28
  const MAX_PDU_SIZE := FULL_HEADER_LEN + DATA_LEN
  const BUFFER_SIZE := 2 * MAX_PDU_SIZE

  // Sequence number, value of the data length field, and NAL unit.
  datatype Packet = Packet(seqNum: nat, dataLen: nat, nal: seq<byte>)

  // The sequence number of the i-th packet.
  function Numbering(i: nat): nat {
    i % 256
  }

  function Packed(nal: seq<byte>, i: nat): Packet {
    Packet(Numbering(i), |nal| + H264_HEADER_LEN, nal)
  }

  // Where the first NAL unit of the buffer ends; -1 if that cannot be told yet.
  function NalEnd(s: seq<byte>, last: bool): (end: int)
    ensures end >= 0 ==> 0 <= NextStart(s, 0) < end <= |s|
  {
    var start := NextStart(s, 0);
    NextStartIs(s, 0);
    if start < 0 then -1
    else
      var next := NextStart(s, start + 1);
      NextStartIs(s, start + 1);
      if next >= 0 then next else if last then |s| else -1
  }

  datatype Outcome = Done | Nothing | Failed

  // What becomes of the buffer, of the sequence number and of the first NAL unit: nothing
  // while its end is unknown, an error if it is too long, and otherwise a packet.
  ghost predicate Processed(outcome: Outcome, packet: Packet, s: seq<byte>, seqNum: nat, last: bool,
                            now: seq<byte>, next: nat)
  {
    var start, end := NextStart(s, 0), NalEnd(s, last);
    if end < 0 then
      outcome == Nothing && now == s && next == seqNum
    else if end - start > DATA_LEN then
      outcome == Failed && now == s && next == seqNum
    else
      && outcome == Done
      && packet == Packet(seqNum, end - start + H264_HEADER_LEN, s[start..end])
      && now == s[end..]
      && next == (seqNum + 1) % 256
  }

  class Talker {
    const buffer: array<byte>
    var level: nat
    var seqNum: nat

    ghost predicate Valid()
      reads this
    {
      buffer.Length == BUFFER_SIZE && level <= buffer.Length && seqNum < 256
    }

    function Contents(): seq<byte>
      requires level <= buffer.Length
      reads this, buffer
    {
      buffer[..level]
    }

    constructor ()
      ensures Valid() && level == 0 && seqNum == 0 && fresh(buffer)
    {
      buffer := new byte[BUFFER_SIZE];
      level, seqNum := 0, 0;
    }

    // What a read of standard input delivers goes behind what is there.
    method FillBuffer(data: seq<byte>)
      requires Valid() && level + |data| <= BUFFER_SIZE
      modifies this`level, buffer
      ensures Valid() && Contents() == old(Contents()) + data
    {
      forall i | 0 <= i < |data| {
        buffer[level + i] := data[i];
      }
      level := level + |data|;
    }

    // The skip-ahead search finds what the naive search finds.
    method StartCodePosition(start: nat) returns (position: int)
      requires Valid() && start < level && level >= 2
      ensures position == NextStart(Contents(), start)
    {
      ghost var s := Contents();
      var offset := start;
      while offset < level - 2
        invariant start <= offset
        invariant NextStart(s, offset) == NextStart(s, start)
      {
        if buffer[offset + 2] == 1 {
          if buffer[offset] == 0 && buffer[offset + 1] == 0 {
            return offset;
          }
          SkipThree(s, offset);
          offset := offset + 3;
        } else if buffer[offset + 2] == 0 {
          offset := offset + 1;
        } else {
          SkipThree(s, offset);
          offset := offset + 3;
        }
      }
      return -1;
    }

    // Cut the first NAL unit off the buffer; the last one only if told that no
    // more is to come.
    method ProcessNal(last: bool) returns (outcome: Outcome, packet: Packet)
      requires Valid() && level >= 2
      modifies this, buffer
      ensures Valid()
      ensures Processed(outcome, packet, old(Contents()), old(seqNum), last, Contents(), seqNum)
    {
      hide NextStart, NalEnd;
      packet := Packet(0, 0, []);
      var start, end := FindNal(last);
      if end < 0 {
        return Nothing, packet;
      }
      var nalLen := end - start;
      if nalLen > DATA_LEN {
        return Failed, packet;
      }
      packet := Packet(seqNum, nalLen + H264_HEADER_LEN, buffer[start..end]);
      assert packet.nal == Contents()[start..end];
      seqNum := (seqNum + 1) % 256;
      Shift(end);
      outcome := Done;
    }

    // The first two searches of the above.
    method FindNal(last: bool) returns (start: int, end: int)
      requires Valid() && level >= 2
      ensures start == NextStart(Contents(), 0) && end == NalEnd(Contents(), last)
    {
      hide NextStart, IsStart;
      start := StartCodePosition(0);
      if start == -1 {
        return start, -1;
      }
      NextStartIs(Contents(), 0);
      NextStartIs(Contents(), start + 1);
      end := StartCodePosition(start + 1);
      if end == -1 && last {
        end := level;
      }
    }

    // Move what is left to the front of the buffer.
    method Shift(end: nat)
      requires Valid() && end <= level
      modifies this`level, buffer
      ensures Valid() && Contents() == old(Contents())[end..]
    {
      forall i | 0 <= i < level - end {
        buffer[i] := buffer[end + i];
      }
      level := level - end;
    }
  }

  // A third byte that is not zero rules out a start at this and the next two
  // positions, unless it completes one here.
  lemma SkipThree(s: seq<byte>, offset: nat)
    requires offset + 2 < |s| && s[offset + 2] != 0 && !IsStart(s, offset)
    ensures NextStart(s, offset) == NextStart(s, offset + 3)
  {
    assert !IsStart(s, offset + 1) && !IsStart(s, offset + 2);
    assert NextStart(s, offset) == NextStart(s, offset + 1);
    assert NextStart(s, offset + 1) == NextStart(s, offset + 2);
    assert NextStart(s, offset + 2) == NextStart(s, offset + 3);
  }

  // ---- The two nested loops -------------------------------------------------

  // The bytes before the first start code stay in the buffer with the first NAL unit.
  // There must be room for both and for the start code behind them, unless the whole
  // stream fits the buffer, or the part of the unit that does is already too long.
  predicate Separable(s: seq<byte>) {
    var lead := NextStart(s, 0);
    || Units(s) == []
    || |s| <= BUFFER_SIZE
    || lead + |Units(s)[0]| + 3 <= BUFFER_SIZE
    || (|Units(s)[0]| > DATA_LEN && lead + DATA_LEN < BUFFER_SIZE)
  }

  // How far into a stream the talker gets: otherwise it takes a full buffer for the end.
  function Reached(s: seq<byte>): (r: seq<byte>)
    ensures r <= s
  {
    if Separable(s) then s else s[..BUFFER_SIZE]
  }

  // A NAL unit with both its ends in what has been read is the first of the whole stream.
  lemma FirstUnit(read: seq<byte>, rest: seq<byte>)
    requires NalEnd(read, false) >= 0
    ensures var start, end := NextStart(read, 0), NalEnd(read, false);
      && NextStart(read + rest, 0) == start
      && Units(read + rest) == [read[start..end]] + Units(read[end..] + rest)
      && NextStart(read[end..] + rest, 0) == 0 && |read[end..]| >= 2
  {
    var start, end := NextStart(read, 0), NalEnd(read, false);
    NextStartIs(read, start + 1);
    StartInPrefix(read, rest, 0);
    StartInPrefix(read, rest, start + 1);
    var stream := read + rest;
    StartAfterCut(stream, start, 1);
    assert stream[start..][..end - start] == read[start..end];
    assert stream[start..][end - start..] == read[end..] + rest;
    assert IsStart(read[end..] + rest, 0);
    assert Coded(read[end..] + rest) == read[end..] + rest;
  }

  // Without a start code behind it, it is the last.
  lemma LastUnit(read: seq<byte>)
    requires NextStart(read, 0) >= 0 && NalEnd(read, false) < 0
    ensures NextStart(read, 0) <= |read| && Units(read) == [read[NextStart(read, 0)..]]
  {
    NextStartIs(read, 0);
    StartAfterCut(read, NextStart(read, 0), 1);
  }

  // The first unit of a stream, and whether there are more.
  lemma UnitsBegin(s: seq<byte>)
    requires NextStart(s, 0) >= 0
    ensures var start, next := NextStart(s, 0), NextStart(s, NextStart(s, 0) + 1);
      && start < |s| && Units(s) != []
      && if next < 0 then Units(s) == [s[start..]] else
          start < next <= |s| && |Units(s)| > 1 && Units(s)[0] == s[start..next]
  {
    NextStartIs(s, 0);
    NextStartIs(s, NextStart(s, 0) + 1);
    StartAfterCut(s, NextStart(s, 0), 1);
    var coded := Coded(s);
    if NextStart(coded, 1) >= 0 {
      NextStartIs(coded, 1);
      var tail := coded[NextStart(coded, 1)..];
      assert tail != [] && Segments(tail) != [];
      assert Units(s) == [coded[..NextStart(coded, 1)]] + Segments(tail);
    }
  }

  // A full buffer without a whole NAL unit, in a separable stream that goes on, holds the
  // beginning of a unit that is too long, so a read that finds no room is followed by the
  // right error; or there is no unit.
  lemma OverfullUnit(read: seq<byte>, rest: seq<byte>)
    requires |read| == BUFFER_SIZE && NalEnd(read, false) < 0
    requires rest != [] && Separable(read + rest)
    ensures NextStart(read, 0) >= 0 ==>
      && Units(read + rest) != [] && |Units(read + rest)[0]| > DATA_LEN
      && |read| - NextStart(read, 0) > DATA_LEN
    ensures NextStart(read, 0) < 0 ==> Units(read + rest) == []
  {
    var start := NextStart(read, 0);
    NextStartIs(read + rest, 0);
    if start >= 0 {
      StartInPrefix(read, rest, 0);
      StartBeyondPrefix(read, rest, start + 1);
    } else {
      StartBeyondPrefix(read, rest, 0);
    }
    if NextStart(read + rest, 0) >= 0 {
      UnitsBegin(read + rest);
    }
  }

  // Behind a start code at the beginning there is always room.
  lemma AtStartSeparable(s: seq<byte>)
    requires NextStart(s, 0) == 0
    ensures Separable(s)
  {
  }

  lemma NotAllFit(segments: seq<seq<byte>>)
    requires segments != [] && |segments[0]| > DATA_LEN
    ensures Fitting(segments) == [] && !AllFit(segments)
  {
  }

  // Everything is done, or the stream from the buffer on is separable.
  predicate AtStart(read: seq<byte>, rest: seq<byte>) {
    if read == [] then rest == [] else |read| >= 2 && Separable(read + rest)
  }

  // What the packets sent leave to be sent.
  predicate Accounts(segments: seq<seq<byte>>, nals: seq<seq<byte>>, left: seq<seq<byte>>) {
    Fitting(segments) == nals + Fitting(left) && (AllFit(segments) <==> AllFit(left))
  }

  predicate Numbered(packets: seq<Packet>, nals: seq<seq<byte>>, first: nat) {
    |packets| == |nals| && forall i :: 0 <= i < |nals| ==> packets[i] == Packed(nals[i], first + i)
  }

  lemma AccountsStep(segments: seq<seq<byte>>, nals: seq<seq<byte>>, first: seq<byte>, more: seq<seq<byte>>)
    requires Accounts(segments, nals, [first] + more) && |first| <= DATA_LEN
    ensures Accounts(segments, nals + [first], more)
  {
  }

  // The last call for packets comes when everything has been read, or when a
  // full buffer leaves no room to read into.
  predicate LastCall(read: seq<byte>, rest: seq<byte>) {
    rest == [] || (|read| == BUFFER_SIZE && NalEnd(read, false) < 0)
  }

  // What decides where the first NAL unit of the buffer ends.
  lemma EndIs(read: seq<byte>, last: bool)
    ensures NalEnd(read, last) ==
      if NalEnd(read, false) >= 0 || !last || NextStart(read, 0) < 0 then NalEnd(read, false) else |read|
    ensures NextStart(read, 0) < 0 ==> NalEnd(read, false) < 0
  {
    NextStartIs(read, 0);
  }

  // A NAL unit too long for a packet is the first of the units left.
  lemma TooLong(read: seq<byte>, rest: seq<byte>, last: bool)
    requires read != [] && AtStart(read, rest)
    requires last ==> LastCall(read, rest)
    requires NalEnd(read, last) >= 0 && NalEnd(read, last) - NextStart(read, 0) > DATA_LEN
    ensures Fitting(Units(read + rest)) == [] && !AllFit(Units(read + rest))
  {
    EndIs(read, last);
    if NalEnd(read, false) >= 0 {
      FirstUnit(read, rest);
    } else if rest == [] {
      assert read + rest == read;
      LastUnit(read);
    } else {
      OverfullUnit(read, rest);
    }
    NotAllFit(Units(read + rest));
  }

  // A NAL unit that fits is the first unit, and what stays in the buffer is at the start
  // of the others.
  lemma Taken(read: seq<byte>, rest: seq<byte>, last: bool)
    requires read != [] && AtStart(read, rest)
    requires last ==> LastCall(read, rest)
    requires NalEnd(read, last) >= 0 && NalEnd(read, last) - NextStart(read, 0) <= DATA_LEN
    ensures var start, end := NextStart(read, 0), NalEnd(read, last);
      && Units(read + rest) == [read[start..end]] + Units(read[end..] + rest)
      && AtStart(read[end..], rest)
      && (last ==> LastCall(read[end..], rest))
  {
    EndIs(read, last);
    hide NextStart, NalEnd, Units;
    if NalEnd(read, false) >= 0 {
      FirstUnit(read, rest);
      AtStartSeparable(read[NalEnd(read, false)..] + rest);
    } else {
      NothingUnread(read, rest);
      assert read + rest == read;
      assert read[|read|..] + rest == [];
      LastUnit(read);
      EmptyHasNoUnit();
    }
  }

  // A unit that ends with the buffer fits only if the input ends there too.
  lemma NothingUnread(read: seq<byte>, rest: seq<byte>)
    requires read != [] && AtStart(read, rest) && LastCall(read, rest) && NalEnd(read, false) < 0
    requires 0 <= NextStart(read, 0) && |read| - NextStart(read, 0) <= DATA_LEN
    ensures rest == []
  {
    if rest != [] {
      OverfullUnit(read, rest);
    }
  }

  // At the last call a buffer without a NAL unit leaves none to come.
  lemma NothingToCome(read: seq<byte>, rest: seq<byte>)
    requires read != [] && AtStart(read, rest) && LastCall(read, rest) && NalEnd(read, true) < 0
    ensures Units(read + rest) == []
  {
    EndIs(read, true);
    if rest == [] {
      assert read + rest == read;
    } else {
      OverfullUnit(read, rest);
    }
  }

  // One pass of the inner loop, seen from the stream; `count` packets were sent.  It fails
  // on a unit too long, finds no whole unit, or sends the next one.
  ghost predicate Cut(outcome: Outcome, packet: Packet, nal: seq<byte>, read: seq<byte>, last: bool, count: nat,
                      rest: seq<byte>, now: seq<byte>, next: nat)
  {
    match outcome
    case Failed => Fitting(Units(read + rest)) == [] && !AllFit(Units(read + rest))
    case Nothing =>
      && now == read && next == Numbering(count)
      && NalEnd(read, false) < 0
      && (last ==> Units(read + rest) == [])
    case Done =>
      && |nal| <= DATA_LEN && Units(read + rest) == [nal] + Units(now + rest)
      && packet == Packed(nal, count)
      && next == Numbering(count + 1)
      && |now| < |read|
      && AtStart(now, rest)
      && (last ==> LastCall(now, rest))
  }

  lemma NumberingNext(count: nat)
    ensures Numbering(count) < 256 && Numbering(count + 1) == (Numbering(count) + 1) % 256
  {
  }

  lemma CutSeen(outcome: Outcome, packet: Packet, read: seq<byte>, last: bool, count: nat,
                rest: seq<byte>, now: seq<byte>, next: nat)
    returns (nal: seq<byte>)
    requires Processed(outcome, packet, read, Numbering(count), last, now, next)
    requires read != [] && AtStart(read, rest)
    requires last ==> LastCall(read, rest)
    ensures Cut(outcome, packet, nal, read, last, count, rest, now, next)
  {
    EndIs(read, last);
    NumberingNext(count);
    hide NextStart, NalEnd, Units, Fitting, AllFit, AtStart, LastCall, Numbering;
    nal := [];
    match outcome
    case Failed =>
      TooLong(read, rest, last);
    case Done =>
      nal := read[NextStart(read, 0)..NalEnd(read, last)];
      Taken(read, rest, last);
    case Nothing =>
      if last {
        NothingToCome(read, rest);
      }
  }

  lemma ProcessedNone(outcome: Outcome, packet: Packet, s: seq<byte>, seqNum: nat, last: bool,
                      now: seq<byte>, next: nat)
    requires Processed(outcome, packet, s, seqNum, last, now, next)
    ensures NalEnd(s, last) < 0 ==> outcome == Nothing && now == s
  {
    hide NalEnd;
  }

  method CutOne(t: Talker, last: bool, count: nat, ghost rest: seq<byte>)
    returns (outcome: Outcome, packet: Packet, ghost nal: seq<byte>)
    requires t.Valid() && t.level > 0 && t.seqNum == Numbering(count)
    requires AtStart(t.Contents(), rest)
    requires last ==> LastCall(t.Contents(), rest)
    modifies t, t.buffer
    ensures t.Valid()
    ensures Cut(outcome, packet, nal, old(t.Contents()), last, count, rest, t.Contents(), t.seqNum)
    ensures NalEnd(old(t.Contents()), last) < 0 ==> outcome == Nothing && t.Contents() == old(t.Contents())
  {
    ghost var read := t.Contents();
    assert read != [] && |read| >= 2;
    hide Processed, Cut, AtStart, LastCall, Numbering, NalEnd;
    outcome, packet := t.ProcessNal(last);
    ProcessedNone(outcome, packet, read, Numbering(count), last, t.Contents(), t.seqNum);
    nal := CutSeen(outcome, packet, read, last, count, rest, t.Contents(), t.seqNum);
  }

  lemma AccountsEnd(segments: seq<seq<byte>>, nals: seq<seq<byte>>, left: seq<seq<byte>>)
    requires Accounts(segments, nals, left)
    requires Fitting(left) == [] && !AllFit(left)
    ensures nals == Fitting(segments) && !AllFit(segments)
  {
  }

  lemma NumberedStep(packets: seq<Packet>, nals: seq<seq<byte>>, first: nat, nal: seq<byte>)
    requires Numbered(packets, nals, first)
    ensures Numbered(packets + [Packed(nal, first + |packets|)], nals + [nal], first)
    ensures |packets| == |nals|
  {
  }

  // What the inner loop keeps: the packets so far are numbered and account for
  // the segments taken, and the buffer is where the next one starts.
  ghost predicate Draining(read: seq<byte>, seqNum: nat, last: bool, first: nat, rest: seq<byte>,
                           segments: seq<seq<byte>>, packets: seq<Packet>, nals: seq<seq<byte>>)
  {
    && seqNum == Numbering(first + |packets|)
    && Numbered(packets, nals, first)
    && AtStart(read, rest)
    && (last ==> LastCall(read, rest))
    && Accounts(segments, nals, Units(read + rest))
  }

  // The inner loop: packets until the buffer holds no complete NAL unit.  `first`
  // counts the packets sent before, `rest` is what has not been read yet.
  method Drain(t: Talker, last: bool, first: nat, ghost rest: seq<byte>)
    returns (ok: bool, packets: seq<Packet>, ghost nals: seq<seq<byte>>)
    requires t.Valid() && t.seqNum == Numbering(first)
    requires AtStart(t.Contents(), rest)
    requires last ==> LastCall(t.Contents(), rest)
    modifies t, t.buffer
    ensures t.Valid()
    ensures var segments := Units(old(t.Contents()) + rest);
      if ok then
        && Draining(t.Contents(), t.seqNum, last, first, rest, segments, packets, nals)
        && NalEnd(t.Contents(), false) < 0
        && (last ==> Units(t.Contents() + rest) == [])
      else
        Numbered(packets, nals, first) && !AllFit(segments) && nals == Fitting(segments)
    ensures NalEnd(old(t.Contents()), last) < 0 ==> t.Contents() == old(t.Contents())
  {
    ghost var segments := Units(t.Contents() + rest);
    ghost var was := t.Contents();
    DrainingBegins(t.Contents(), last, first, rest);
    packets, nals := [], [];
    hide Draining, NextStart, NalEnd, Units, Fitting, AllFit, Numbered, Numbering, AtStart, LastCall;
    while t.level > 0
      invariant t.Valid()
      invariant Draining(t.Contents(), t.seqNum, last, first, rest, segments, packets, nals)
      invariant NalEnd(was, last) < 0 ==> t.Contents() == was
      decreases t.level
    {
      var outcome;
      outcome, packets, nals := DrainOne(t, last, first, rest, segments, packets, nals);
      if outcome == Failed {
        return false, packets, nals;
      }
      if outcome == Nothing {
        return true, packets, nals;
      }
    }
    assert t.Contents() == [];
    DrainingEnds(t.seqNum, last, first, rest, segments, packets, nals);
    ok := true;
  }

  // The body of that loop.
  method DrainOne(t: Talker, last: bool, first: nat, ghost rest: seq<byte>, ghost segments: seq<seq<byte>>,
                  packets: seq<Packet>, ghost nals: seq<seq<byte>>)
    returns (outcome: Outcome, sent: seq<Packet>, ghost taken: seq<seq<byte>>)
    requires t.Valid() && t.level > 0
    requires Draining(t.Contents(), t.seqNum, last, first, rest, segments, packets, nals)
    modifies t, t.buffer
    ensures t.Valid()
    ensures match outcome
      case Failed => !AllFit(segments) && taken == Fitting(segments) && Numbered(sent, taken, first)
      case Nothing =>
        && Draining(t.Contents(), t.seqNum, last, first, rest, segments, sent, taken)
        && NalEnd(t.Contents(), false) < 0 && (last ==> Units(t.Contents() + rest) == [])
      case Done =>
        && Draining(t.Contents(), t.seqNum, last, first, rest, segments, sent, taken)
        && t.level < old(t.level)
    ensures NalEnd(old(t.Contents()), last) < 0 ==> t.Contents() == old(t.Contents())
  {
    ghost var read := t.Contents();
    DrainingIs(read, t.seqNum, last, first, rest, segments, packets, nals);
    hide Draining, Cut, NextStart, NalEnd, Units, Fitting, AllFit, Numbered, Numbering, AtStart, LastCall;
    var packet;
    ghost var nal: seq<byte>;
    outcome, packet, nal := CutOne(t, last, first + |packets|, rest);
    DrainingStep(read, last, first, rest, segments, packets, nals, outcome, packet, nal, t.Contents(), t.seqNum);
    sent := if outcome == Done then packets + [packet] else packets;
    taken := if outcome == Done then nals + [nal] else nals;
  }

  lemma DrainingBegins(read: seq<byte>, last: bool, first: nat, rest: seq<byte>)
    requires AtStart(read, rest) && (last ==> LastCall(read, rest))
    ensures Draining(read, Numbering(first), last, first, rest, Units(read + rest), [], [])
  {
    hide Units, Fitting, AllFit, AtStart, LastCall;
  }

  lemma DrainingEnds(seqNum: nat, last: bool, first: nat, rest: seq<byte>,
                     segments: seq<seq<byte>>, packets: seq<Packet>, nals: seq<seq<byte>>)
    requires Draining([], seqNum, last, first, rest, segments, packets, nals)
    ensures NalEnd([], false) < 0 && (last ==> Units([] + rest) == [])
  {
    EmptyHasNoUnit();
    hide Units, NalEnd;
    assert [] + rest == rest;
  }

  lemma DrainingIs(read: seq<byte>, seqNum: nat, last: bool, first: nat, rest: seq<byte>,
                   segments: seq<seq<byte>>, packets: seq<Packet>, nals: seq<seq<byte>>)
    requires Draining(read, seqNum, last, first, rest, segments, packets, nals)
    ensures seqNum == Numbering(first + |packets|)
    ensures Numbered(packets, nals, first)
    ensures AtStart(read, rest) && (last ==> LastCall(read, rest))
    ensures Accounts(segments, nals, Units(read + rest))
  {
  }

  lemma DrainingStep(read: seq<byte>, last: bool, first: nat, rest: seq<byte>, segments: seq<seq<byte>>,
                     packets: seq<Packet>, nals: seq<seq<byte>>, outcome: Outcome, packet: Packet, nal: seq<byte>,
                     now: seq<byte>, next: nat)
    requires Draining(read, Numbering(first + |packets|), last, first, rest, segments, packets, nals)
    requires Cut(outcome, packet, nal, read, last, first + |packets|, rest, now, next)
    ensures match outcome
      case Failed => !AllFit(segments) && nals == Fitting(segments) && Numbered(packets, nals, first)
      case Nothing =>
        && Draining(now, next, last, first, rest, segments, packets, nals)
        && NalEnd(now, false) < 0 && (last ==> Units(now + rest) == [])
      case Done =>
        && Draining(now, next, last, first, rest, segments, packets + [packet], nals + [nal])
        && |now| < |read|
  {
    hide Units, Fitting, AllFit, Accounts, Numbered, Packed, Numbering, AtStart, LastCall, NalEnd;
    match outcome
    case Failed =>
      AccountsEnd(segments, nals, Units(read + rest));
    case Nothing =>
    case Done =>
      AccountsStep(segments, nals, nal, Units(now + rest));
      NumberedStep(packets, nals, first, nal);
  }

  lemma EmptyHasNoUnit()
    ensures NalEnd([], false) < 0 && Units([]) == []
  {
  }

  // How much a read delivers: at least a byte while there is input and room for
  // it, at most both, and otherwise what the environment chooses.
  function ReadSize(choice: nat, remaining: nat, room: nat): (n: nat)
    ensures n <= remaining && n <= room
    ensures n == 0 ==> remaining == 0 || room == 0
  {
    var most := if remaining < room then remaining else room;
    if most == 0 then 0 else if choice == 0 then 1 else if choice < most then choice else most
  }

  // The first read finds the buffer empty and must deliver two bytes: the search
  // does not look at a buffer that holds one.
  predicate Ready(read: seq<byte>, rest: seq<byte>, choice: nat) {
    || AtStart(read, rest)
    || (read == [] && |rest| >= 2 && Separable(rest) && choice >= 2)
  }

  // What one read changes.
  lemma ReadKeeps(read: seq<byte>, rest: seq<byte>, choice: nat, n: nat)
    requires |read| <= BUFFER_SIZE && NalEnd(read, false) < 0 && Ready(read, rest, choice)
    requires n == ReadSize(choice, |rest|, BUFFER_SIZE - |read|)
    ensures (read + rest[..n]) + rest[n..] == read + rest
    ensures AtStart(read + rest[..n], rest[n..])
    ensures n == 0 ==> LastCall(read + rest[..n], rest[n..])
  {
    hide NextStart, NalEnd;
    assert (read + rest[..n]) + rest[n..] == read + rest;
    if read == [] {
      assert read + rest == rest;
    }
    if n == 0 {
      assert read + rest[..n] == read && rest[n..] == rest;
    }
  }

  // A pass of the outer loop: a read, then the inner loop.  The packets it sends account
  // for the units they take, and when no more is to come there are none left; or it fails
  // at the first unit too long.
  ghost predicate Passed(good: bool, ended: bool, read: seq<byte>, rest: seq<byte>, now: seq<byte>, seqNum: nat,
                         left: seq<byte>, count: nat, packets: seq<Packet>, nals: seq<seq<byte>>)
  {
    && Numbered(packets, nals, count)
    && if good then
         && seqNum == Numbering(count + |packets|)
         && NalEnd(now, false) < 0
         && AtStart(now, left)
         && (ended ==> Units(now + left) == [])
         && Accounts(Units(read + rest), nals, Units(now + left))
       else
         !AllFit(Units(read + rest)) && nals == Fitting(Units(read + rest))
  }

  // What will be read still, and behind it what will not because the buffer is full first.
  predicate Whole(read: seq<byte>, reach: seq<byte>, beyond: seq<byte>) {
    beyond != [] ==> |read| + |reach| == BUFFER_SIZE && NalEnd(read + reach, false) < 0
  }

  lemma WholeRead(read: seq<byte>, reach: seq<byte>, beyond: seq<byte>, choice: nat, n: nat)
    requires Whole(read, reach, beyond) && |read| <= BUFFER_SIZE
    requires n == ReadSize(choice, |reach + beyond|, BUFFER_SIZE - |read|)
    ensures n == ReadSize(choice, |reach|, BUFFER_SIZE - |read|)
    ensures n <= |reach| && (reach + beyond)[..n] == reach[..n] && (reach + beyond)[n..] == reach[n..] + beyond
    ensures beyond != [] ==> NalEnd(read + reach[..n], false) < 0
    ensures Whole(read + reach[..n], reach[n..], beyond)
  {
    assert beyond == [] ==> reach + beyond == reach;
    assert (read + reach[..n]) + reach[n..] == read + reach;
    if beyond != [] && NalEnd(read + reach[..n], false) >= 0 {
      EndInPrefix(read + reach[..n], reach[n..]);
    }
  }

  lemma EndInPrefix(read: seq<byte>, rest: seq<byte>)
    requires NalEnd(read, false) >= 0
    ensures NalEnd(read + rest, false) >= 0
  {
    StartInPrefix(read, rest, 0);
    StartInPrefix(read, rest, NextStart(read, 0) + 1);
  }

  method Pass(t: Talker, choice: nat, rest: seq<byte>, count: nat, ghost reach: seq<byte>, ghost beyond: seq<byte>)
    returns (good: bool, ended: bool, left: seq<byte>, packets: seq<Packet>,
             ghost nals: seq<seq<byte>>, ghost within: seq<byte>)
    requires t.Valid() && t.seqNum == Numbering(count)
    requires rest == reach + beyond && Whole(t.Contents(), reach, beyond)
    requires NalEnd(t.Contents(), false) < 0 && Ready(t.Contents(), reach, choice)
    modifies t, t.buffer
    ensures t.Valid()
    ensures if ended then left == rest else |left| < |rest|
    ensures left == within + beyond && (!ended ==> Whole(t.Contents(), within, beyond))
    ensures Passed(good, ended, old(t.Contents()), reach, t.Contents(), t.seqNum, within, count, packets, nals)
  {
    hide Units, Fitting, AllFit, Numbering, Numbered, IsStart;
    ghost var read := t.Contents();
    var n := ReadSize(choice, |rest|, BUFFER_SIZE - t.level);
    WholeRead(read, reach, beyond, choice, n);
    ReadKeeps(read, reach, choice, n);
    t.FillBuffer(rest[..n]);
    left, within := rest[n..], reach[n..];
    ended := n == 0;
    assert t.Contents() == read + reach[..n];
    hide NextStart, NalEnd, Ready, AtStart, LastCall, Accounts;
    good, packets, nals := Drain(t, ended, count, within);
    if good {
      DrainingIs(t.Contents(), t.seqNum, ended, count, within, Units(read + reach), packets, nals);
    }
  }

  // The talker has done what it is for: the packets are the stream's NAL units in order,
  // numbered modulo 256, up to the first unit that is too long for a packet, and it ends
  // without error exactly when there is none.
  predicate Sends(ok: bool, sent: seq<Packet>, s: seq<byte>) {
    (ok <==> AllFit(Units(s))) && Numbered(sent, Fitting(Units(s)), 0)
  }

  // However reads cut the input: that is what it does with as much of the input as it
  // reaches, and so with all of it if and only if the input is separable.
  method Run(input: seq<byte>, choose: nat -> nat) returns (ok: bool, sent: seq<Packet>)
    requires |input| != 1 && choose(0) >= 2
    ensures Sends(ok, sent, Reached(input))
    ensures Sends(ok, sent, input) <==> Separable(input)
  {
    var t := new Talker();
    ghost var nals, read := [], t.Contents();
    ghost var reach, beyond := Reached(input), input[|Reached(input)|..];
    var rest, calls, ended := input, 0, false;
    sent := [];
    assert t.Contents() == [];
    Begin(input, choose(0));
    hide NextStart, NalEnd, Units, Fitting, AllFit, Sending, Passed, Numbered, Ready, Whole, Separable, Reached, Sends;
    while !ended
      invariant t.Valid() && fresh(t) && fresh(t.buffer) && read == t.Contents()
      invariant Sending(Reached(input), read, t.seqNum, reach, choose(calls), sent, nals)
      invariant rest == reach + beyond && (!ended ==> Whole(read, reach, beyond))
      invariant ended ==> Units(read + reach) == []
      decreases |rest|, !ended
    {
      SendingIs(Reached(input), read, t.seqNum, reach, choose(calls), sent, nals);
      ghost var was, more, within := t.seqNum, [], [];
      var good, left, packets;
      good, ended, left, packets, more, within := Pass(t, choose(calls), rest, |sent|, reach, beyond);
      SendingStep(Reached(input), read, was, reach, choose(calls), sent, nals,
                  good, ended, t.Contents(), t.seqNum, within, packets, more, choose(calls + 1));
      sent := sent + packets;
      if !good {
        SendsIff(false, sent, input);
        return false, sent;
      }
      read, nals := t.Contents(), nals + more;
      reach := within;
      rest, calls := left, calls + 1;
    }
    SendingEnd(Reached(input), read, t.seqNum, reach, choose(calls), sent, nals);
    ok := true;
    SendsIff(ok, sent, input);
  }

  // What the outer loop keeps.
  ghost predicate Sending(input: seq<byte>, read: seq<byte>, seqNum: nat, rest: seq<byte>, choice: nat,
                          sent: seq<Packet>, nals: seq<seq<byte>>)
  {
    && seqNum == Numbering(|sent|)
    && Numbered(sent, nals, 0)
    && Accounts(Units(input), nals, Units(read + rest))
    && NalEnd(read, false) < 0
    && Ready(read, rest, choice)
  }

  lemma SendingIs(input: seq<byte>, read: seq<byte>, seqNum: nat, rest: seq<byte>, choice: nat,
                  sent: seq<Packet>, nals: seq<seq<byte>>)
    requires Sending(input, read, seqNum, rest, choice, sent, nals)
    ensures seqNum == Numbering(|sent|)
    ensures NalEnd(read, false) < 0 && Ready(read, rest, choice)
  {
  }

  lemma SendingStep(input: seq<byte>, read: seq<byte>, was: nat, rest: seq<byte>, choice: nat, sent: seq<Packet>,
                    nals: seq<seq<byte>>, good: bool, ended: bool, now: seq<byte>, seqNum: nat, left: seq<byte>,
                    packets: seq<Packet>, more: seq<seq<byte>>, next: nat)
    requires Sending(input, read, was, rest, choice, sent, nals)
    requires Passed(good, ended, read, rest, now, seqNum, left, |sent|, packets, more)
    ensures if good then
        Sending(input, now, seqNum, left, next, sent + packets, nals + more) && (ended ==> Units(now + left) == [])
      else
        Sends(false, sent + packets, input)
  {
    hide Units, Fitting, AllFit, Accounts, Numbered, Numbering, NalEnd, AtStart;
    NumberedJoin(sent, nals, packets, more);
    if good {
      AccountsJoin(Units(input), nals, Units(read + rest), more, Units(now + left));
    } else {
      AccountsFail(Units(input), nals, Units(read + rest), more);
    }
  }

  lemma SendingEnd(input: seq<byte>, read: seq<byte>, seqNum: nat, rest: seq<byte>, choice: nat,
                   sent: seq<Packet>, nals: seq<seq<byte>>)
    requires Sending(input, read, seqNum, rest, choice, sent, nals) && Units(read + rest) == []
    ensures Sends(true, sent, input)
  {
    assert Fitting([]) == [] && AllFit([]);
    hide Units, Numbered, NalEnd, Ready, Fitting, AllFit;
  }

  lemma Begin(input: seq<byte>, choice: nat)
    requires |input| != 1 && choice >= 2
    ensures var reach := Reached(input);
      && input == reach + input[|reach|..]
      && Whole([], reach, input[|reach|..])
      && Sending(reach, [], 0, reach, choice, [], [])
  {
    var reach := Reached(input);
    hide NextStart, NalEnd, Units, Fitting, AllFit, Separable;
    assert [] + reach == reach;
    ReachedSeparable(input);
    EmptyHasNoUnit();
    if !Separable(input) {
      NoUnitReached(input);
    }
  }

  lemma ReachedSeparable(s: seq<byte>)
    ensures Separable(Reached(s))
  {
    hide NextStart, Units;
  }

  // In a stream that is not separable the buffer fills up without a whole unit.
  lemma NoUnitReached(s: seq<byte>)
    requires !Separable(s)
    ensures NextStart(s, 0) >= 0 && |s| > BUFFER_SIZE && NalEnd(s[..BUFFER_SIZE], false) < 0
  {
    hide NextStart, Units, NalEnd, Separable;
    NotSeparable(s);
    var full, rest := s[..BUFFER_SIZE], s[BUFFER_SIZE..];
    assert s == full + rest;
    EndsBefore(full);
    if NalEnd(full, false) >= 0 {
      FirstUnit(full, rest);
    }
  }

  lemma NotSeparable(s: seq<byte>)
    requires !Separable(s)
    ensures NextStart(s, 0) >= 0 && Units(s) != [] && |s| > BUFFER_SIZE
    ensures NextStart(s, 0) + |Units(s)[0]| + 3 > BUFFER_SIZE
  {
    hide NextStart, Segments;
  }

  // The start code behind a whole unit is in the buffer too.
  lemma EndsBefore(read: seq<byte>)
    ensures NalEnd(read, false) + 3 <= |read| || NalEnd(read, false) < 0
  {
    if NextStart(read, 0) >= 0 {
      NextStartIs(read, NextStart(read, 0) + 1);
    }
  }

  // It stops at a prefix of what the stream codes.
  lemma CodedReached(s: seq<byte>)
    ensures Coded(Reached(s)) <= Coded(s)
    ensures Separable(s) ==> Coded(Reached(s)) == Coded(s)
  {
    var r, rest := Reached(s), s[|Reached(s)|..];
    assert s == r + rest;
    if NextStart(r, 0) >= 0 {
      StartInPrefix(r, rest, 0);
      NextStartIs(r, 0);
    }
  }

  lemma SendsIff(ok: bool, sent: seq<Packet>, s: seq<byte>)
    requires Sends(ok, sent, Reached(s))
    ensures Sends(ok, sent, s) <==> Separable(s)
  {
    if !Separable(s) {
      LosesUnits(s);
      hide Separable, Units, Fitting, AllFit;
      if Sends(ok, sent, s) {
        SameNumbered(sent, Fitting(Units(s)), Fitting(Units(Reached(s))));
      }
    }
  }

  lemma SameNumbered(sent: seq<Packet>, a: seq<seq<byte>>, b: seq<seq<byte>>)
    requires Numbered(sent, a, 0) && Numbered(sent, b, 0)
    ensures a == b
  {
    assert forall i :: 0 <= i < |a| ==> Packed(a[i], i) == sent[i] == Packed(b[i], i);
  }

  // What a full buffer holds of a stream that is not separable is not what the stream
  // holds: no unit, a piece of one, or the first of several.
  lemma LosesUnits(s: seq<byte>)
    requires !Separable(s)
    ensures Fitting(Units(Reached(s))) != Fitting(Units(s)) || AllFit(Units(Reached(s))) != AllFit(Units(s))
  {
    var full, rest := s[..BUFFER_SIZE], s[BUFFER_SIZE..];
    assert s == full + rest && Reached(s) == full;
    NoUnitReached(s);
    UnitsBegin(s);
    if NextStart(full, 0) < 0 {
      assert Units(full) == [];
      FittingFirst(Units(s));
    } else {
      StartInPrefix(full, rest, 0);
      LastUnit(full);
      PieceDiffers(s, Units(full)[0]);
    }
  }

  lemma NumberedJoin(a: seq<Packet>, nalsA: seq<seq<byte>>, b: seq<Packet>, nalsB: seq<seq<byte>>)
    requires Numbered(a, nalsA, 0) && Numbered(b, nalsB, |a|)
    ensures Numbered(a + b, nalsA + nalsB, 0)
  {
  }

  lemma AccountsJoin(segments: seq<seq<byte>>, nals: seq<seq<byte>>, mid: seq<seq<byte>>,
                     more: seq<seq<byte>>, left: seq<seq<byte>>)
    requires Accounts(segments, nals, mid) && Accounts(mid, more, left)
    ensures Accounts(segments, nals + more, left)
  {
  }

  lemma AccountsFail(segments: seq<seq<byte>>, nals: seq<seq<byte>>, mid: seq<seq<byte>>, more: seq<seq<byte>>)
    requires Accounts(segments, nals, mid)
    requires !AllFit(mid) && more == Fitting(mid)
    ensures !AllFit(segments) && nals + more == Fitting(segments)
  {
  }

  lemma PieceDiffers(s: seq<byte>, v: seq<byte>)
    requires !Separable(s) && NextStart(s, 0) + |v| == BUFFER_SIZE
    ensures Fitting([v]) != Fitting(Units(s)) || AllFit([v]) != AllFit(Units(s))
  {
    UnitsBegin(s);
    var units := Units(s);
    hide NextStart, Units;
    FittingOne(v);
    FittingFirst(units);
    if AllFit([v]) && AllFit(units) && Fitting(units) == [v] {
      FittingFirst(units[1..]);
    }
  }

  lemma FittingOne(v: seq<byte>)
    ensures Fitting([v]) == if |v| > DATA_LEN then [] else [v]
    ensures AllFit([v]) <==> |v| <= DATA_LEN
  {
  }

  lemma FittingFirst(segments: seq<seq<byte>>)
    ensures Fitting(segments) ==
      if segments == [] || |segments[0]| > DATA_LEN then [] else [segments[0]] + Fitting(segments[1..])
    ensures segments != [] && |segments[0]| > DATA_LEN ==> !AllFit(segments)
  {
  }

  // Up to so many bytes before the first start code there is room for every unit that
  // fits a packet.
  const MAX_LEAD := 1453

  lemma ShortLead(s: seq<byte>)
    requires NextStart(s, 0) <= MAX_LEAD
    ensures Separable(s)
  {
  }

  // That many bytes before a unit that just fits a packet, and the start of another.
  function LongLead(lead: nat): (s: seq<byte>)
    ensures |s| == lead + DATA_LEN + 3
    ensures forall i :: 0 <= i < |s| ==>
      s[i] == if i in {lead, lead + 1, lead + DATA_LEN, lead + DATA_LEN + 1} then 0 else 1
  {
    var at := {lead, lead + 1, lead + DATA_LEN, lead + DATA_LEN + 1};
    seq(lead + DATA_LEN + 3, i => if i in at then 0 else 1)
  }

  lemma LongLeadStarts(lead: nat, i: nat)
    ensures IsStart(LongLead(lead), i) <==> i == lead || i == lead + DATA_LEN
  {
  }

  // And with more there is a stream of two units that both fit, and are not both sent.
  lemma MaxLeadIsExact(lead: nat)
    requires lead > MAX_LEAD
    ensures var s := LongLead(lead);
      && NextStart(s, 0) == lead && AllFit(Units(s)) && |Units(s)| == 2
      && !Separable(s)
  {
    var s := LongLead(lead);
    forall i: nat
      ensures IsStart(s, i) <==> i == lead || i == lead + DATA_LEN
    {
      LongLeadStarts(lead, i);
    }
    hide LongLead;
    NextStartUnique(s, 0, lead);
    NextStartUnique(s, lead + 1, lead + DATA_LEN);
    NextStartIs(s, lead + DATA_LEN + 1);
    StartAfterCut(s, lead, 1);
    StartAfterCut(s, lead + DATA_LEN, 1);
    var unit := s[lead..];
    assert unit[DATA_LEN..] == s[lead + DATA_LEN..];
    assert Segments(unit) == [unit[..DATA_LEN], unit[DATA_LEN..]];
  }

  // What goes out: packet i carries the i-th unit that fits, is numbered i modulo 256 and
  // announces the unit's length and the 4 bytes of its H.264 header.
  lemma SentPackets(ok: bool, sent: seq<Packet>, s: seq<byte>, i: nat)
    requires Sends(ok, sent, s) && i < |sent|
    ensures |sent| == |Fitting(Units(s))| && sent[i].nal == Fitting(Units(s))[i]
    ensures sent[i].seqNum == i % 256
    ensures sent[i].dataLen == |sent[i].nal| + 4 && |sent[i].nal| <= 1400
  {
    FittingFits(Units(s), i);
    assert sent[i] == Packed(Fitting(Units(s))[i], i);
    hide Units, Fitting, AllFit;
  }

  lemma {:induction false} FittingFits(segments: seq<seq<byte>>, i: nat)
    requires i < |Fitting(segments)|
    ensures |Fitting(segments)[i]| <= DATA_LEN
  {
    if i > 0 {
      FittingFits(segments[1..], i - 1);
    }
  }
}
