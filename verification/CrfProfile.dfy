/**
 The CRF packet: its field table, and the profile a talker encodes and a listener
 checks (IEEE 1722-2016, clause 10).
 */
module CrfProfile {
  import opened BitField
  import opened Header
  import opened ProfileCheck
  import opened Words

  const SUBTYPE_CRF := 0x04
  const MAX_TIMESTAMPS_PER_PDU := 6

  // subtype_data, stream_id, packet_info
  const WIDTHS := [32, 64, 64]
  const HEADER_SIZE := 20

  datatype Field =
    | Subtype | Version
    | Sv | Mr | Fs | Tu | SeqNum | Type
    | StreamId
    | Pull | BaseFreq | CrfDataLen | TimestampInterval

  function Layout(f: Field): Slot {
    match f
    case Subtype => Slot(0, Place(31 - 7, 8))
    case Version => Slot(0, Place(31 - 11, 3))
    case Sv => Slot(0, Place(31 - 8, 1))
    case Mr => Slot(0, Place(31 - 12, 1))
    case Fs => Slot(0, Place(31 - 14, 1))
    case Tu => Slot(0, Place(31 - 15, 1))
    case SeqNum => Slot(0, Place(31 - 23, 8))
    case Type => Slot(0, Place(0, 8))
    case StreamId => Slot(1, Place(0, 64))
    case Pull => Slot(2, Place(63 - 2, 3))
    case BaseFreq => Slot(2, Place(63 - 31, 29))
    case CrfDataLen => Slot(2, Place(63 - 47, 16))
    case TimestampInterval => Slot(2, Place(0, 16))
  }

  function Width(f: Field): nat {
    Layout(f).place.len
  }

  lemma FieldsFit(f: Field)
    ensures InLayout(Layout(f), WIDTHS)
  {
  }

  lemma FieldsApart(f: Field, g: Field)
    requires f != g
    ensures Disjoint(Layout(f), Layout(g))
  {
  }

  lemma AllLaidOut()
    ensures LaidOut(Layout, WIDTHS)
  {
    forall f: Field
      ensures InLayout(Layout(f), WIDTHS)
    {
      FieldsFit(f);
    }
    forall f: Field, g: Field | f != g
      ensures Disjoint(Layout(f), Layout(g))
    {
      FieldsApart(f, g);
    }
  }

  predicate Shaped(h: Row) {
    Widths(h) == WIDTHS
  }

  function Read(h: Row, f: Field): nat
    requires Shaped(h)
  {
    if f == StreamId then Value(h[1]) else FieldsFit(f); Get(h, Layout(f))
  }

  function Write(h: Row, f: Field, value: nat): Row
    requires Shaped(h)
  {
    if f == StreamId then h[1 := Bits(value, 64)] else FieldsFit(f); Set(h, Layout(f), value)
  }

  // The stream id, read and written as a whole word, is a field like the others.
  lemma OneTable(h: Row, f: Field, value: nat)
    requires Shaped(h)
    ensures InLayout(Layout(f), Widths(h))
    ensures Read(h, f) == Get(h, Layout(f))
    ensures Write(h, f, value) == Set(h, Layout(f), value)
    ensures Shaped(Write(h, f, value))
  {
    hide GetValue, SetValue, Bits, Value;
    FieldsFit(f);
    if f == StreamId {
      assert Widths(h)[1] == 64;
      WholeWord(h[1], value);
    }
  }

  // Every field of the table keeps what is written to it, cut to its width, and no
  // write shows in another field.
  lemma WriteThenRead(h: Row, f: Field, value: nat, g: Field)
    requires Shaped(h)
    ensures Shaped(Write(h, f, value))
    ensures Read(Write(h, f, value), g) ==
            if f == g then value % Pow2(Width(f)) else Read(h, g)
  {
    hide Read, Write, Get, Set, Layout;
    OneTable(h, f, value);
    OneTable(h, g, value);
    OneTable(Write(h, f, value), g, value);
    if f == g {
      ReadBack(h, Layout(f), value);
    } else {
      FieldsApart(f, g);
      Untouched(h, Layout(f), value, Layout(g));
    }
  }

  // --- the wire ---------------------------------------------------------------------

  // Where each field is in the numbers that the header words stand for: the word, the
  // worth of its lowest bit and how many values it has.
  function OnWire(f: Field): Digit {
    match f
    case Subtype => Digit(0, 0x100_0000, 0x100)
    case Sv => Digit(0, 0x80_0000, 2)
    case Version => Digit(0, 0x10_0000, 8)
    case Mr => Digit(0, 0x8_0000, 2)
    case Fs => Digit(0, 0x2_0000, 2)
    case Tu => Digit(0, 0x1_0000, 2)
    case SeqNum => Digit(0, 0x100, 0x100)
    case Type => Digit(0, 1, 0x100)
    case StreamId => Digit(1, 1, U64)
    case Pull => Digit(2, 0x2000_0000_0000_0000, 8)
    case BaseFreq => Digit(2, 0x1_0000_0000, 0x2000_0000)
    case CrfDataLen => Digit(2, 0x1_0000, 0x1_0000)
    case TimestampInterval => Digit(2, 1, 0x1_0000)
  }

  lemma OnWireIsLayout(f: Field)
    ensures OnWire(f) == Digit(Layout(f).word, Pow2(Layout(f).place.shift), Pow2(Layout(f).place.len))
  {
    FieldWidths();
    FieldShifts();
    hide Pow2;
  }

  // Every field is read from its digits of its header word.
  lemma FieldOnWire(h: Row, f: Field)
    requires Shaped(h)
    ensures OnWire(f).word < |h|
    ensures Read(h, f) == Value(h[OnWire(f).word]) / OnWire(f).unit % OnWire(f).size
  {
    hide Read, Get, Value, Pow2, OnWire, Layout;
    OneTable(h, f, 0);
    OnWireIsLayout(f);
    GetOnWire(h, Layout(f));
  }

  // --- the profile ------------------------------------------------------------------

  datatype Profile = Profile(streamId: u64, baseFreq: u32, timestampInterval: u16,
                             kind: u8, pull: u8, timestampsPerPdu: u8)

  function DataLen(p: Profile): nat {
    p.timestampsPerPdu * 8
  }

  function PduSize(p: Profile): nat {
    HEADER_SIZE + DataLen(p)
  }

  // What every field must have room for, and a usable number of timestamps.
  predicate Encodable(p: Profile) {
    && p.baseFreq < 0x2000_0000
    && p.pull < 8
    && 1 <= p.timestampsPerPdu <= MAX_TIMESTAMPS_PER_PDU
  }

  const PREAMBLE: seq<Setting<Field>> := [Setting(Subtype, SUBTYPE_CRF), Setting(Sv, 1)]

  // What the profile puts on top of the blank CRF header.
  function Settings(p: Profile): seq<Setting<Field>> {
    [
      Setting(Fs, 0),
      Setting(Type, p.kind),
      Setting(StreamId, p.streamId),
      Setting(Pull, p.pull),
      Setting(BaseFreq, p.baseFreq),
      Setting(TimestampInterval, p.timestampInterval),
      Setting(CrfDataLen, DataLen(p))
    ]
  }

  function Encoded(p: Profile): (h: Row)
    ensures Shaped(h)
  {
    AllLaidOut();
    Filled(Cleared(WIDTHS), Table(Layout, PREAMBLE + Settings(p)))
  }

  lemma FieldsDiffer(p: Profile)
    ensures Distinct(PREAMBLE + Settings(p))
  {
  }

  // Each field of an encoded header holds its setting, cut to its width.
  lemma EncodedHolds(p: Profile, k: nat)
    requires k < |PREAMBLE + Settings(p)|
    ensures var s := (PREAMBLE + Settings(p))[k];
            Read(Encoded(p), s.field) == s.value % Pow2(Width(s.field))
  {
    hide Read, Get, Pow2, Layout, Settings, LaidOut, Distinct;
    AllLaidOut();
    FieldsDiffer(p);
    SettingHolds(Cleared(WIDTHS), Layout, PREAMBLE + Settings(p), k);
    OneTable(Encoded(p), (PREAMBLE + Settings(p))[k].field, 0);
  }

  lemma EncodedZero(p: Profile, f: Field)
    requires f in {Version, Mr, Tu, SeqNum}
    ensures Read(Encoded(p), f) == 0
  {
    hide Read, Get, Layout, LaidOut;
    AllLaidOut();
    UnsetIsZero(WIDTHS, Layout, PREAMBLE + Settings(p), f);
    OneTable(Encoded(p), f, 0);
  }

  // --- parsing ----------------------------------------------------------------------

  datatype Info = Info(mr: bool, tu: bool, seqNum: nat, timestamps: seq<nat>)

  const BLANK := Info(false, false, 0, [])

  function Version0(h: Row): Check
    requires Shaped(h)
  {
    Check("version", Read(h, Version), 0, true)
  }

  function FieldChecks(h: Row, p: Profile): seq<Check>
    requires Shaped(h)
  {
    [
      Check("sv", Read(h, Sv), 1, true),
      Check("type", Read(h, Type), p.kind, true),
      Check("base_freq", Read(h, BaseFreq), p.baseFreq, true),
      Check("fs", Read(h, Fs), 0, false),
      Check("pull", Read(h, Pull), p.pull, false),
      Check("timestamp_interval", Read(h, TimestampInterval), p.timestampInterval, false)
    ]
  }

  // Too short rejects in both modes, too long only under Strict.
  function LengthCheck(h: Row, p: Profile): Check
    requires Shaped(h)
  {
    var got := Read(h, CrfDataLen);
    Check("crf_data_len", got, DataLen(p), got < DataLen(p))
  }

  function Checks(h: Row, p: Profile): seq<Check>
    requires Shaped(h)
  {
    [Version0(h)] + FieldChecks(h, p) + [LengthCheck(h, p)]
  }

  predicate UsableCount(p: Profile) {
    1 <= p.timestampsPerPdu <= MAX_TIMESTAMPS_PER_PDU
  }

  // The bytes a caller vouches for reach no further than the packet's data.
  predicate Backed(data: seq<u64>, len: nat) {
    len < HEADER_SIZE + 8 * (|data| + 1)
  }

  function Signals(h: Row, data: seq<u64>, p: Profile): Info
    requires Shaped(h) && p.timestampsPerPdu <= |data|
  {
    Info(Read(h, Mr) != 0, Read(h, Tu) != 0, Read(h, SeqNum), data[..p.timestampsPerPdu])
  }

  // The whole parse: length, ownership, then the checks in order.
  function Parsed(h: Row, data: seq<u64>, len: nat, p: Profile, mode: Mode): Outcome<Info>
    requires Shaped(h) && Backed(data, len)
  {
    if !UsableCount(p) || len != PduSize(p) then Outcome(Malformed, NoBad, BLANK)
    else if Read(h, Subtype) != SUBTYPE_CRF then Outcome(WrongSubtype, NoBad, BLANK)
    else if Read(h, StreamId) != p.streamId then Outcome(OtherStream, NoBad, BLANK)
    else
      var f := Judged(Checks(h, p), mode, NoBad);
      Outcome(f.status, f.bad, if f.status.Accepted? then Signals(h, data, p) else BLANK)
  }

  // Before any field is checked, in this order: a length that is not the profile's is
  // malformed, another subtype and another stream are set aside, and nothing is reported.
  lemma StatusIs(h: Row, data: seq<u64>, len: nat, p: Profile, mode: Mode)
    requires Shaped(h) && Backed(data, len)
    ensures var r := Parsed(h, data, len, p, mode);
            var sized := 1 <= p.timestampsPerPdu <= 6 && len == 20 + 8 * p.timestampsPerPdu;
            && (r.status.Malformed? <==> !sized)
            && (r.status.WrongSubtype? <==> sized && Read(h, Subtype) != 0x04)
            && (r.status.OtherStream? <==> sized && Read(h, Subtype) == 0x04 && Read(h, StreamId) != p.streamId)
            && (!r.status.Accepted? ==> r.info == Info(false, false, 0, []))
            && (r.status in {Malformed, WrongSubtype, OtherStream} ==> r.bad == NoBad)
  {
    hide Read, Judged, Checks;
    var checks := Checks(h, p);
    if !Judged(checks, mode, NoBad).status.Accepted? {
      var k := FirstRejection(checks, mode, NoBad);
    }
  }

  // A CRF packet in memory; its setters rewrite header words in place.
  class Pdu {
    var header: Row
    var data: seq<u64>

    constructor (data: seq<u64>)
      ensures header == Cleared(WIDTHS) && this.data == data
    {
      header := Cleared(WIDTHS);
      this.data := data;
    }

    method Put(f: Field, value: nat)
      requires Shaped(header)
      modifies this`header
      ensures header == Write(old(header), f, value)
    {
      if f == StreamId {
        header := header[1 := Bits(value, 64)];
      } else {
        FieldsFit(f);
        header := Set(header, Layout(f), value);
      }
    }

    method PutAll(settings: seq<Setting<Field>>)
      requires Shaped(header)
      modifies this`header
      ensures AllInLayout(Table(Layout, settings), WIDTHS)
      ensures header == Filled(old(header), Table(Layout, settings))
    {
      AllLaidOut();
      hide Write, Set, Layout;
      for i := 0 to |settings|
        invariant Shaped(header)
        invariant header == Filled(old(header), Table(Layout, settings[..i]))
      {
        OneTable(header, settings[i].field, settings[i].value);
        Put(settings[i].field, settings[i].value);
        assert Table(Layout, settings[..i + 1])[..i] == Table(Layout, settings[..i]);
      }
      assert settings[..|settings|] == settings;
    }

    // The header becomes the profile's, whatever was there; the timestamps stay.
    method Init(p: Profile)
      modifies this`header
      ensures header == Encoded(p)
    {
      hide Filled, Layout;
      header := Cleared(WIDTHS);
      PutAll(PREAMBLE);
      PutAll(Settings(p));
      FilledInTurn(Cleared(WIDTHS), Table(Layout, PREAMBLE), Table(Layout, Settings(p)));
      assert Table(Layout, PREAMBLE) + Table(Layout, Settings(p)) == Table(Layout, PREAMBLE + Settings(p));
    }

    method Parse(len: nat, p: Profile, mode: Mode, out: Report<Info>) returns (status: Status)
      requires Shaped(header) && Backed(data, len)
      modifies out
      ensures out.Answer(status) == Parsed(header, data, len, p, mode)
    {
      hide Read, Judged;
      out.bad := NoBad;
      out.info := BLANK;
      if p.timestampsPerPdu == 0 || p.timestampsPerPdu > MAX_TIMESTAMPS_PER_PDU {
        return Malformed;
      }
      if len != PduSize(p) {
        return Malformed;
      }
      if Read(header, Subtype) != SUBTYPE_CRF {
        return WrongSubtype;
      }
      if Read(header, StreamId) != p.streamId {
        return OtherStream;
      }
      status := out.CheckAll([Version0(header)], mode);
      JudgedInTurn([Version0(header)] + FieldChecks(header, p), [LengthCheck(header, p)], mode, NoBad);
      JudgedInTurn([Version0(header)], FieldChecks(header, p), mode, NoBad);
      if status != Accepted {
        return;
      }
      status := out.CheckAll(FieldChecks(header, p), mode);
      if status != Accepted {
        return;
      }
      status := out.CheckAll([LengthCheck(header, p)], mode);
      if status != Accepted {
        return;
      }
      out.info := Info(Read(header, Mr) != 0, Read(header, Tu) != 0, Read(header, SeqNum), data[..p.timestampsPerPdu]);
    }
  }

  // --- what a talker's header says --------------------------------------------------

  lemma ListedSettings(p: Profile)
    ensures var s := PREAMBLE + Settings(p);
            && |s| == 9
            && s[0] == Setting(Subtype, SUBTYPE_CRF)
            && s[1] == Setting(Sv, 1)
            && s[2] == Setting(Fs, 0)
            && s[3] == Setting(Type, p.kind)
            && s[4] == Setting(StreamId, p.streamId)
            && s[5] == Setting(Pull, p.pull)
            && s[6] == Setting(BaseFreq, p.baseFreq)
            && s[7] == Setting(TimestampInterval, p.timestampInterval)
            && s[8] == Setting(CrfDataLen, DataLen(p))
  {
  }

  // A setting that fits its field is read back whole.
  lemma EncodedFits(p: Profile, k: nat)
    requires k < |PREAMBLE + Settings(p)|
    requires var s := (PREAMBLE + Settings(p))[k]; s.value < Pow2(Width(s.field))
    ensures var s := (PREAMBLE + Settings(p))[k]; Read(Encoded(p), s.field) == s.value
  {
    hide Read, Encoded, Pow2, Settings, Width;
    EncodedHolds(p, k);
  }

  lemma EncodedFields(p: Profile)
    ensures var h := Encoded(p);
            && Read(h, Subtype) == SUBTYPE_CRF
            && Read(h, Version) == 0
            && Read(h, Sv) == 1
            && Read(h, Fs) == 0
            && Read(h, Type) == p.kind
            && Read(h, StreamId) == p.streamId
            && Read(h, Pull) == p.pull % 8
            && Read(h, BaseFreq) == p.baseFreq % 0x2000_0000
            && Read(h, TimestampInterval) == p.timestampInterval
            && Read(h, CrfDataLen) == DataLen(p)
            && Read(h, Mr) == 0 && Read(h, Tu) == 0 && Read(h, SeqNum) == 0
  {
    hide Read, Encoded, Pow2, Settings;
    FieldWidths();
    ListedSettings(p);
    EncodedFits(p, 0);
    EncodedFits(p, 1);
    EncodedFits(p, 2);
    EncodedFits(p, 3);
    EncodedFits(p, 4);
    EncodedHolds(p, 5);
    EncodedHolds(p, 6);
    EncodedFits(p, 7);
    EncodedFits(p, 8);
    EncodedZero(p, Version);
    EncodedZero(p, Mr);
    EncodedZero(p, Tu);
    EncodedZero(p, SeqNum);
  }

  // The header of an encoded profile as the numbers in its words.
  lemma EncodedWords(p: Profile)
    requires Encodable(p)
    ensures var h := Encoded(p);
            && |h| == 3 && Widths(h) == [32, 64, 64]
            && Value(h[0]) == SUBTYPE_CRF * 0x100_0000 + 0x80_0000 + p.kind
            && Value(h[1]) == p.streamId
            && Value(h[2]) == p.pull * 0x2000_0000_0000_0000 + p.baseFreq * 0x1_0000_0000
                              + DataLen(p) * 0x1_0000 + p.timestampInterval
  {
    AllLaidOut();
    FieldsDiffer(p);
    hide Value, Filled, Cleared, Widths, LaidOut, Distinct, Sum, Settings;
    WordIsSum(WIDTHS, Layout, PREAMBLE + Settings(p), 0);
    WordIsSum(WIDTHS, Layout, PREAMBLE + Settings(p), 1);
    WordIsSum(WIDTHS, Layout, PREAMBLE + Settings(p), 2);
    SumIs(p, 0);
    SumIs(p, 1);
    SumIs(p, 2);
  }

  lemma SumIs(p: Profile, w: nat)
    requires Encodable(p) && w < 3
    ensures |PREAMBLE + Settings(p)| == 9
    ensures Sum(Layout, PREAMBLE + Settings(p), w, 9) ==
            if w == 0 then SUBTYPE_CRF * 0x100_0000 + 0x80_0000 + p.kind
            else if w == 1 then p.streamId
            else p.pull * 0x2000_0000_0000_0000 + p.baseFreq * 0x1_0000_0000
                 + DataLen(p) * 0x1_0000 + p.timestampInterval
  {
    var s := PREAMBLE + Settings(p);
    ListedSettings(p);
    FieldWidths();
    FieldShifts();
    hide Pow2, Settings, Adds, Sum;
    AddsIs(Layout, s[0], w, 0x100_0000, 0x100);
    AddsIs(Layout, s[1], w, 0x80_0000, 2);
    AddsIs(Layout, s[2], w, 0x2_0000, 2);
    AddsIs(Layout, s[3], w, 1, 0x100);
    AddsIs(Layout, s[4], w, 1, 0x1_0000_0000_0000_0000);
    AddsIs(Layout, s[5], w, 0x2000_0000_0000_0000, 8);
    AddsIs(Layout, s[6], w, 0x1_0000_0000, 0x2000_0000);
    AddsIs(Layout, s[7], w, 1, 0x1_0000);
    AddsIs(Layout, s[8], w, 0x1_0000, 0x1_0000);
    SumOfThree(Layout, s, w, 0);
    SumOfThree(Layout, s, w, 3);
    SumOfThree(Layout, s, w, 6);
  }

  // A strict listener accepts a talker's packet exactly when the profile fits the
  // header, and then reports the timestamps the talker put there.
  lemma EncodeThenParse(p: Profile, data: seq<u64>)
    requires Backed(data, PduSize(p))
    ensures var r := Parsed(Encoded(p), data, PduSize(p), p, Strict);
            && (r.status.Accepted? <==> Encodable(p))
            && (Encodable(p) ==>
                  r == Outcome(Accepted, NoBad, Info(false, false, 0, data[..p.timestampsPerPdu])))
  {
    hide Read, Encoded, Judged;
    EncodedFields(p);
    var h := Encoded(p);
    var checks := Checks(h, p);
    ListedChecks(h, p);
    CleanIffStrict(checks);
    AcceptedIff(checks, Strict, NoBad);
    assert checks[3].Rejects(Strict) <==> p.baseFreq >= 0x2000_0000;
    assert checks[5].Rejects(Strict) <==> p.pull >= 8;
  }

  // --- strict and lenient -----------------------------------------------------------

  // On every packet: strict acceptance is lenient acceptance with nothing to report,
  // and then both report the same.
  lemma StrictIsCleanLenient(h: Row, data: seq<u64>, len: nat, p: Profile)
    requires Shaped(h) && Backed(data, len)
    ensures var strict, lenient := Parsed(h, data, len, p, Strict), Parsed(h, data, len, p, Lenient);
            && (strict.status.Accepted? <==> lenient.status.Accepted? && lenient.bad == NoBad)
            && (strict.status.Accepted? ==> strict == lenient)
            && (!strict.status.Mismatch? && !strict.status.Accepted? ==> strict == lenient)
  {
    hide Read, Judged;
    if UsableCount(p) && len == PduSize(p) {
      var checks := Checks(h, p);
      CleanIffStrict(checks);
      AcceptedIff(checks, Strict, NoBad);
      if !Judged(checks, Strict, NoBad).status.Accepted? {
        var k := FirstRejection(checks, Strict, NoBad);
      }
    }
  }

  predicate Ours(h: Row, len: nat, p: Profile)
    requires Shaped(h)
  {
    && UsableCount(p)
    && len == PduSize(p)
    && Read(h, Subtype) == SUBTYPE_CRF
    && Read(h, StreamId) == p.streamId
  }

  lemma ListedChecks(h: Row, p: Profile)
    requires Shaped(h)
    ensures var c := Checks(h, p);
            && |c| == 8
            && c[0] == Check("version", Read(h, Version), 0, true)
            && c[1] == Check("sv", Read(h, Sv), 1, true)
            && c[2] == Check("type", Read(h, Type), p.kind, true)
            && c[3] == Check("base_freq", Read(h, BaseFreq), p.baseFreq, true)
            && c[4] == Check("fs", Read(h, Fs), 0, false)
            && c[5] == Check("pull", Read(h, Pull), p.pull, false)
            && c[6] == Check("timestamp_interval", Read(h, TimestampInterval), p.timestampInterval, false)
            && c[7] == LengthCheck(h, p)
  {
    hide Read;
  }

  // Lenient rejects a packet of the stream exactly for a legacy field that disagrees
  // or for data too short, and names one of them.
  lemma LenientRejectsFor(h: Row, data: seq<u64>, len: nat, p: Profile)
    requires Shaped(h) && Backed(data, len) && Ours(h, len, p)
    ensures var r := Parsed(h, data, len, p, Lenient);
            && (r.status.Mismatch? <==>
                  || Read(h, Version) != 0 || Read(h, Sv) != 1 || Read(h, Type) != p.kind
                  || Read(h, BaseFreq) != p.baseFreq || Read(h, CrfDataLen) < DataLen(p))
            && (r.status.Mismatch? ==>
                  r.bad.Bad? && r.bad.name in {"version", "sv", "type", "base_freq", "crf_data_len"})
            && (!r.status.Mismatch? ==> r.status.Accepted?)
  {
    hide Read, Judged, Checks;
    var checks := Checks(h, p);
    ListedChecks(h, p);
    AcceptedIff(checks, Lenient, NoBad);
    if !Judged(checks, Lenient, NoBad).status.Accepted? {
      var k := FirstRejection(checks, Lenient, NoBad);
      assert checks[k].legacy;
    }
  }

  // Strict accepts a packet of the stream exactly when every field is the profile's.
  lemma StrictAcceptsFor(h: Row, data: seq<u64>, len: nat, p: Profile)
    requires Shaped(h) && Backed(data, len) && Ours(h, len, p)
    ensures var r := Parsed(h, data, len, p, Strict);
            && (r.status.Accepted? <==>
                  && Read(h, Version) == 0 && Read(h, Sv) == 1 && Read(h, Type) == p.kind
                  && Read(h, BaseFreq) == p.baseFreq && Read(h, Fs) == 0 && Read(h, Pull) == p.pull
                  && Read(h, TimestampInterval) == p.timestampInterval
                  && Read(h, CrfDataLen) == DataLen(p))
            && (!r.status.Accepted? ==> r.status.Mismatch?)
  {
    hide Read, Judged, Checks;
    var checks := Checks(h, p);
    ListedChecks(h, p);
    AcceptedIff(checks, Strict, NoBad);
    if !Judged(checks, Strict, NoBad).status.Accepted? {
      var k := FirstRejection(checks, Strict, NoBad);
    }
  }

  // What of a talker's packets a lenient listener lets through: exactly those whose count
  // is usable and whose base frequency fits, whatever the pull.
  lemma LenientTakes(p: Profile, data: seq<u64>)
    requires Backed(data, PduSize(p))
    ensures Parsed(Encoded(p), data, PduSize(p), p, Lenient).status.Accepted? <==>
            UsableCount(p) && p.baseFreq < 0x2000_0000
  {
    hide Read, Encoded, Judged, Checks;
    EncodedFields(p);
    if UsableCount(p) {
      LenientRejectsFor(Encoded(p), data, PduSize(p), p);
    }
  }

  // An instance: a pull code too wide for its field goes out truncated; a lenient listener
  // takes the packet and only reports it.
  lemma WidePullSlipsThrough(p: Profile, data: seq<u64>)
    requires Backed(data, PduSize(p)) && UsableCount(p) && p.baseFreq < 0x2000_0000 && p.pull >= 8
    ensures Parsed(Encoded(p), data, PduSize(p), p, Lenient) ==
            Outcome(Accepted, Bad("pull", p.pull % 8, p.pull),
                    Info(false, false, 0, data[..p.timestampsPerPdu]))
  {
    hide Read, Encoded, Judged, Checks;
    EncodedFields(p);
    var h := Encoded(p);
    var checks := Checks(h, p);
    ListedChecks(h, p);
    AcceptedIff(checks, Lenient, NoBad);
    LastReported(checks, Lenient, NoBad, 5);
  }

  // --- what an accepted packet reports ----------------------------------------------

  lemma AcceptedSignals(h: Row, data: seq<u64>, len: nat, p: Profile, mode: Mode)
    requires Shaped(h) && Backed(data, len)
    requires Parsed(h, data, len, p, mode).status.Accepted?
    ensures p.timestampsPerPdu <= |data|
    ensures Parsed(h, data, len, p, mode).info == Signals(h, data, p)
  {
    hide Read, Judged;
  }

  // The profile's header with the media-clock restart and timestamp-uncertain bits and the
  // sequence number put in.
  function Signalled(p: Profile, mr: bool, tu: bool, seqNum: nat): Row {
    var h := Encoded(p);
    OneTable(h, Mr, if mr then 1 else 0);
    var g := Write(h, Mr, if mr then 1 else 0);
    OneTable(g, Tu, if tu then 1 else 0);
    Write(Write(g, Tu, if tu then 1 else 0), SeqNum, seqNum)
  }

  lemma SignalledReads(p: Profile, mr: bool, tu: bool, seqNum: nat, f: Field)
    requires seqNum < 0x100
    ensures var h := Signalled(p, mr, tu, seqNum);
            && Shaped(h)
            && Read(h, f) ==
               match f
               case Mr => if mr then 1 else 0
               case Tu => if tu then 1 else 0
               case SeqNum => seqNum
               case _ => Read(Encoded(p), f)
  {
    hide Read, Write, Encoded, Pow2;
    FieldWidths();
    var a: nat, b: nat := if mr then 1 else 0, if tu then 1 else 0;
    var h := Encoded(p);
    var g := Write(h, Mr, a);
    WriteThenRead(h, Mr, a, f);
    WriteThenRead(g, Tu, b, f);
    WriteThenRead(Write(g, Tu, b), SeqNum, seqNum, f);
  }

  // In either mode such a packet is accepted and reports just those bits, that number and
  // the timestamps.
  lemma SignalledPacketParses(p: Profile, mode: Mode, mr: bool, tu: bool, seqNum: nat, data: seq<u64>)
    requires Encodable(p) && seqNum < 0x100 && Backed(data, PduSize(p))
    ensures var h := Signalled(p, mr, tu, seqNum);
            && Shaped(h)
            && Parsed(h, data, PduSize(p), p, mode) ==
               Outcome(Accepted, NoBad, Info(mr, tu, seqNum, data[..p.timestampsPerPdu]))
  {
    hide Read, Encoded, Parsed, Signalled;
    var h := Signalled(p, mr, tu, seqNum);
    forall f: Field
      ensures Shaped(h)
      ensures f != Mr && f != Tu && f != SeqNum ==> Read(h, f) == Read(Encoded(p), f)
    {
      SignalledReads(p, mr, tu, seqNum, f);
    }
    SignalledReads(p, mr, tu, seqNum, Mr);
    SignalledReads(p, mr, tu, seqNum, Tu);
    SignalledReads(p, mr, tu, seqNum, SeqNum);
    EncodedFields(p);
    StrictAcceptsFor(h, data, PduSize(p), p);
    StrictIsCleanLenient(h, data, PduSize(p), p);
    AcceptedSignals(h, data, PduSize(p), p, mode);
  }
}
