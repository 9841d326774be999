/**
 An H.264 byte stream in the format of Annex B of ITU-T H.264: NAL units, each
 announced by the start code 00 00 01.
 */
module NalStream {

  type byte = b: int | 0 <= b < 256

  predicate IsStart(s: seq<byte>, i: nat) {
    i + 2 < |s| && s[i] == 0 && s[i + 1] == 0 && s[i + 2] == 1
  }

  // Position of the first start code at or after `from`, or -1: a naive search.
  function NextStart(s: seq<byte>, from: nat): int
    decreases |s| - from
  {
    if from + 2 >= |s| then -1
    else if IsStart(s, from) then from
    else NextStart(s, from + 1)
  }

  lemma {:induction false} NextStartIs(s: seq<byte>, from: nat)
    ensures var r := NextStart(s, from);
      && (r >= 0 ==> from <= r && IsStart(s, r) && forall i :: from <= i < r ==> !IsStart(s, i))
      && (r < 0 ==> r == -1 && forall i :: from <= i ==> !IsStart(s, i))
    decreases |s| - from
  {
    if from + 2 < |s| && !IsStart(s, from) {
      NextStartIs(s, from + 1);
    }
  }

  // The least position is the only one with that description.
  lemma NextStartUnique(s: seq<byte>, from: nat, r: nat)
    requires from <= r && IsStart(s, r)
    requires forall i :: from <= i < r ==> !IsStart(s, i)
    ensures NextStart(s, from) == r
  {
    NextStartIs(s, from);
  }

  // The stream cut before every start code but the first byte's.
  function Segments(s: seq<byte>): seq<seq<byte>>
    decreases |s|
  {
    if s == [] then []
    else
      var cut := NextStart(s, 1);
      NextStartIs(s, 1);
      if cut < 0 then [s] else [s[..cut]] + Segments(s[cut..])
  }

  function Flatten(parts: seq<seq<byte>>): seq<byte> {
    if parts == [] then [] else parts[0] + Flatten(parts[1..])
  }

  // Cutting loses nothing.
  lemma {:induction false} SegmentsFlatten(s: seq<byte>)
    ensures Flatten(Segments(s)) == s
    decreases |s|
  {
    if s != [] {
      var cut := NextStart(s, 1);
      NextStartIs(s, 1);
      if cut < 0 {
        assert [s][1..] == [];
        assert Flatten([s]) == s + Flatten([]);
      } else {
        SegmentsFlatten(s[cut..]);
        var rest := Segments(s[cut..]);
        assert ([s[..cut]] + rest)[1..] == rest;
        assert s == s[..cut] + s[cut..];
      }
    }
  }

  // What has been read of a stream finds the same start codes as all of it.
  lemma StartInPrefix(read: seq<byte>, rest: seq<byte>, from: nat)
    requires NextStart(read, from) >= 0
    ensures NextStart(read + rest, from) == NextStart(read, from)
  {
    NextStartIs(read, from);
    var r := NextStart(read, from);
    assert forall i :: 0 <= i <= r ==> IsStart(read + rest, i) == IsStart(read, i);
    NextStartUnique(read + rest, from, r);
  }

  // A prefix without a start code leaves room for one only across its last two bytes.
  lemma StartBeyondPrefix(read: seq<byte>, rest: seq<byte>, from: nat)
    requires NextStart(read, from) < 0
    ensures NextStart(read + rest, from) < 0 || NextStart(read + rest, from) + 2 >= |read|
  {
    NextStartIs(read, from);
    NextStartIs(read + rest, from);
    assert forall i: nat :: i + 2 < |read| ==> IsStart(read + rest, i) == IsStart(read, i);
  }

  // Start codes after a cut are where they were.
  lemma StartAfterCut(s: seq<byte>, cut: nat, from: nat)
    requires cut <= |s|
    ensures var r := NextStart(s, cut + from);
      NextStart(s[cut..], from) == if r < 0 then -1 else r - cut
  {
    NextStartIs(s, cut + from);
    var r := NextStart(s, cut + from);
    assert forall i: nat :: IsStart(s[cut..], i) == IsStart(s, cut + i);
    if r >= 0 {
      assert forall i :: from <= i < r - cut ==> !IsStart(s[cut..], i);
      NextStartUnique(s[cut..], from, r - cut);
    } else {
      NextStartIs(s[cut..], from);
    }
  }

  // The stream from its first start code on.
  function Coded(s: seq<byte>): seq<byte> {
    var start := NextStart(s, 0);
    NextStartIs(s, 0);
    if start < 0 then [] else s[start..]
  }

  // The NAL units of a stream: what comes before the first start code is none of them.
  function Units(s: seq<byte>): seq<seq<byte>> {
    Segments(Coded(s))
  }

  const DATA_LEN := 1400

  // Segments up to the first one too long for a packet.
  function Fitting(segments: seq<seq<byte>>): seq<seq<byte>> {
    if segments == [] || |segments[0]| > DATA_LEN then []
    else [segments[0]] + Fitting(segments[1..])
  }

  predicate AllFit(segments: seq<seq<byte>>) {
    forall i :: 0 <= i < |segments| ==> |segments[i]| <= DATA_LEN
  }

  lemma {:induction false} FittingIsAll(segments: seq<seq<byte>>)
    ensures AllFit(segments) <==> Fitting(segments) == segments
    ensures Fitting(segments) <= segments
  {
    if segments != [] && |segments[0]| <= DATA_LEN {
      FittingIsAll(segments[1..]);
      assert segments == [segments[0]] + segments[1..];
      if AllFit(segments[1..]) {
        assert AllFit(segments) by {
          forall i | 0 <= i < |segments|
            ensures |segments[i]| <= DATA_LEN
          {
            if i > 0 {
              assert segments[i] == segments[1..][i - 1];
            }
          }
        }
      }
    }
  }
}
