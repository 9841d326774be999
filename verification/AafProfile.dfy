/**
 The AAF packet: its field table over the shared stream header, and the profile a
 talker encodes and a listener checks (IEEE 1722-2016, clause 7).
 */
module AafProfile {
  import opened BitField
  import opened Header
  import opened ProfileCheck
  import opened Words

  const SUBTYPE_AAF := 0x02

  // subtype_data, stream_id, avtp_time, format_specific, packet_info
  const WIDTHS := [32, 64, 32, 32, 32]
  const HEADER_SIZE := 24

  datatype Field =
    | Subtype | Version
    | Sv | Mr | Tv | SeqNum | Tu | StreamId | Timestamp | StreamDataLen
    | Format | Nsr | ChanPerFrame | BitDepth | Sp | Evt

  function Layout(f: Field): Slot {
    match f
    case Subtype => Slot(0, Place(31 - 7, 8))
    case Version => Slot(0, Place(31 - 11, 3))
    case Sv => Slot(0, Place(31 - 8, 1))
    case Mr => Slot(0, Place(31 - 12, 1))
    case Tv => Slot(0, Place(31 - 15, 1))
    case SeqNum => Slot(0, Place(31 - 23, 8))
    case Tu => Slot(0, Place(0, 1))
    case StreamId => Slot(1, Place(0, 64))
    case Timestamp => Slot(2, Place(0, 32))
    case StreamDataLen => Slot(4, Place(31 - 15, 16))
    case Format => Slot(3, Place(31 - 7, 8))
    case Nsr => Slot(3, Place(31 - 11, 4))
    case ChanPerFrame => Slot(3, Place(31 - 23, 10))
    case BitDepth => Slot(3, Place(0, 8))
    case Sp => Slot(4, Place(31 - 19, 1))
    case Evt => Slot(4, Place(31 - 23, 4))
  }

  function Width(f: Field): nat {
    Layout(f).place.len
  }

  lemma FieldsFit(f: Field)
    ensures InLayout(Layout(f), WIDTHS)
  {
  }

  lemma FieldsApart(f: Field, g: Field)
    requires f != g
    ensures Disjoint(Layout(f), Layout(g))
  {
  }

  lemma AllLaidOut()
    ensures LaidOut(Layout, WIDTHS)
  {
    forall f: Field
      ensures InLayout(Layout(f), WIDTHS)
    {
      FieldsFit(f);
    }
    forall f: Field, g: Field | f != g
      ensures Disjoint(Layout(f), Layout(g))
    {
      FieldsApart(f, g);
    }
  }

  predicate Shaped(h: Row) {
    Widths(h) == WIDTHS
  }

  // The format's own fields, whose setter takes a 32-bit value.
  predicate Narrow(f: Field) {
    f in {Format, Nsr, ChanPerFrame, BitDepth, Sp, Evt}
  }

  function Read(h: Row, f: Field): nat
    requires Shaped(h)
  {
    if f == StreamId then Value(h[1])
    else if f == Timestamp then Value(h[2])
    else FieldsFit(f); Get(h, Layout(f))
  }

  function Write(h: Row, f: Field, value: nat): Row
    requires Shaped(h)
  {
    if f == StreamId then h[1 := Bits(value, 64)]
    else if f == Timestamp then h[2 := Bits(value, 32)]
    else if Narrow(f) then FieldsFit(f); Set(h, Layout(f), value % U32)
    else FieldsFit(f); Set(h, Layout(f), value)
  }

  // Stream id and timestamp, read and written as whole words, and the 32-bit setters
  // are one table with the rest.
  lemma OneTable(h: Row, f: Field, value: nat)
    requires Shaped(h)
    ensures InLayout(Layout(f), Widths(h))
    ensures Read(h, f) == Get(h, Layout(f))
    ensures Write(h, f, value) == Set(h, Layout(f), value)
    ensures Shaped(Write(h, f, value))
  {
    hide GetValue, SetValue, Bits, Value;
    FieldsFit(f);
    assert Widths(h)[1] == 64 && Widths(h)[2] == 32;
    if f == StreamId {
      WholeWord(h[1], value);
    } else if f == Timestamp {
      WholeWord(h[2], value);
    } else if Narrow(f) {
      WrapIsLost(h[Layout(f).word], value, Layout(f).place);
    }
  }

  // A 32-bit word takes no more of a value than its low 32 bits.
  lemma WrapIsLost(word: Word, value: nat, p: Place)
    requires |word| == 32 && Within(p, 32)
    ensures SetValue(word, value % U32, p) == SetValue(word, value, p)
  {
    hide Mask, Bits, Value;
    Pow2Is32();
    ValueOfBits(value, 32);
    BitsOfValue(Bits(value, 32));
  }

  // Every field of the table keeps what is written to it, cut to its width, and no
  // write shows in another field.
  lemma WriteThenRead(h: Row, f: Field, value: nat, g: Field)
    requires Shaped(h)
    ensures Shaped(Write(h, f, value))
    ensures Read(Write(h, f, value), g) ==
            if f == g then value % Pow2(Width(f)) else Read(h, g)
  {
    hide Read, Write, Get, Set, Layout;
    OneTable(h, f, value);
    OneTable(h, g, value);
    OneTable(Write(h, f, value), g, value);
    if f == g {
      ReadBack(h, Layout(f), value);
    } else {
      FieldsApart(f, g);
      Untouched(h, Layout(f), value, Layout(g));
    }
  }

  // --- the wire ---------------------------------------------------------------------

  // Where each field is in the numbers that the header words stand for: the word, the
  // worth of its lowest bit and how many values it has.
  function OnWire(f: Field): Digit {
    match f
    case Subtype => Digit(0, 0x100_0000, 0x100)
    case Sv => Digit(0, 0x80_0000, 2)
    case Version => Digit(0, 0x10_0000, 8)
    case Mr => Digit(0, 0x8_0000, 2)
    case Tv => Digit(0, 0x1_0000, 2)
    case SeqNum => Digit(0, 0x100, 0x100)
    case Tu => Digit(0, 1, 2)
    case StreamId => Digit(1, 1, U64)
    case Timestamp => Digit(2, 1, U32)
    case Format => Digit(3, 0x100_0000, 0x100)
    case Nsr => Digit(3, 0x10_0000, 16)
    case ChanPerFrame => Digit(3, 0x100, 0x400)
    case BitDepth => Digit(3, 1, 0x100)
    case StreamDataLen => Digit(4, 0x1_0000, 0x1_0000)
    case Sp => Digit(4, 0x1000, 2)
    case Evt => Digit(4, 0x100, 16)
  }

  lemma OnWireIsLayout(f: Field)
    ensures OnWire(f) == Digit(Layout(f).word, Pow2(Layout(f).place.shift), Pow2(Layout(f).place.len))
  {
    FieldWidths();
    FieldShifts();
    hide Pow2;
  }

  // Every field is read from its digits of its header word.
  lemma FieldOnWire(h: Row, f: Field)
    requires Shaped(h)
    ensures OnWire(f).word < |h|
    ensures Read(h, f) == Value(h[OnWire(f).word]) / OnWire(f).unit % OnWire(f).size
  {
    hide Read, Get, Value, Pow2, OnWire, Layout;
    OneTable(h, f, 0);
    OnWireIsLayout(f);
    GetOnWire(h, Layout(f));
  }

  // --- the profile ------------------------------------------------------------------

  datatype Profile = Profile(streamId: u64, nsr: u8, format: u8, bitDepth: u8, sp: u8,
                             channels: u8, framesPerPdu: u16)

  // Bytes a sample takes on the wire; zero for a format code not known.
  function SampleSize(format: u8): nat {
    match format
    case 0x04 => 2
    case 0x03 => 3
    case 0x02 => 4
    case 0x01 => 4
    case 0x05 => 4
    case _ => 0
  }

  function DataLen(p: Profile): nat {
    SampleSize(p.format) * p.channels * p.framesPerPdu
  }

  function PduSize(p: Profile): nat {
    HEADER_SIZE + DataLen(p)
  }

  predicate Usable(p: Profile) {
    p.channels != 0 && p.framesPerPdu != 0 && SampleSize(p.format) != 0
  }

  // What every field must have room for, in a profile that carries samples.
  predicate Encodable(p: Profile) {
    && Usable(p)
    && p.nsr < 16
    && p.sp < 2
    && DataLen(p) < 0x1_0000
  }

  const PREAMBLE: seq<Setting<Field>> := [Setting(Subtype, SUBTYPE_AAF), Setting(Sv, 1)]

  // What the profile puts on top of the blank AAF header.
  function Settings(p: Profile): seq<Setting<Field>> {
    [
      Setting(Tv, 1),
      Setting(StreamId, p.streamId),
      Setting(Format, p.format),
      Setting(Nsr, p.nsr),
      Setting(ChanPerFrame, p.channels),
      Setting(BitDepth, p.bitDepth),
      Setting(StreamDataLen, DataLen(p)),
      Setting(Sp, p.sp)
    ]
  }

  function Encoded(p: Profile): (h: Row)
    ensures Shaped(h)
  {
    AllLaidOut();
    Filled(Cleared(WIDTHS), Table(Layout, PREAMBLE + Settings(p)))
  }

  lemma FieldsDiffer(p: Profile)
    ensures Distinct(PREAMBLE + Settings(p))
  {
  }

  // Each field of an encoded header holds its setting, cut to its width.
  lemma EncodedHolds(p: Profile, k: nat)
    requires k < |PREAMBLE + Settings(p)|
    ensures var s := (PREAMBLE + Settings(p))[k];
            Read(Encoded(p), s.field) == s.value % Pow2(Width(s.field))
  {
    hide Read, Get, Pow2, Layout, Settings, LaidOut, Distinct;
    AllLaidOut();
    FieldsDiffer(p);
    SettingHolds(Cleared(WIDTHS), Layout, PREAMBLE + Settings(p), k);
    OneTable(Encoded(p), (PREAMBLE + Settings(p))[k].field, 0);
  }

  lemma EncodedZero(p: Profile, f: Field)
    requires f in {Version, Mr, Tu, SeqNum, Timestamp, Evt}
    ensures Read(Encoded(p), f) == 0
  {
    hide Read, Get, Layout, LaidOut;
    AllLaidOut();
    UnsetIsZero(WIDTHS, Layout, PREAMBLE + Settings(p), f);
    OneTable(Encoded(p), f, 0);
  }

  // --- parsing ----------------------------------------------------------------------

  datatype Info = Info(tv: bool, timestamp: nat, seqNum: nat, payload: seq<u8>)

  const BLANK := Info(false, 0, 0, [])

  function Version0(h: Row): Check
    requires Shaped(h)
  {
    Check("version", Read(h, Version), 0, true)
  }

  function FieldChecks(h: Row, p: Profile): seq<Check>
    requires Shaped(h)
  {
    [
      Check("tv", Read(h, Tv), 1, true),
      Check("format", Read(h, Format), p.format, true),
      Check("nsr", Read(h, Nsr), p.nsr, true),
      Check("chan_per_frame", Read(h, ChanPerFrame), p.channels, true),
      Check("stream_data_len", Read(h, StreamDataLen), DataLen(p), true),
      Check("bit_depth", Read(h, BitDepth), p.bitDepth, false),
      Check("sp", Read(h, Sp), p.sp, false)
    ]
  }

  function Checks(h: Row, p: Profile): seq<Check>
    requires Shaped(h)
  {
    [Version0(h)] + FieldChecks(h, p)
  }

  // The bytes a caller vouches for reach no further than the packet's payload.
  predicate Backed(payload: seq<u8>, len: nat) {
    len <= HEADER_SIZE + |payload|
  }

  function Signals(h: Row, payload: seq<u8>, p: Profile): Info
    requires Shaped(h) && DataLen(p) <= |payload|
  {
    Info(true, Read(h, Timestamp), Read(h, SeqNum), payload[..DataLen(p)])
  }

  // The whole parse: length, ownership, then the checks in order.
  function Parsed(h: Row, payload: seq<u8>, len: nat, p: Profile, mode: Mode): Outcome<Info>
    requires Shaped(h) && Backed(payload, len)
  {
    if !Usable(p) || len != PduSize(p) then Outcome(Malformed, NoBad, BLANK)
    else if Read(h, Subtype) != SUBTYPE_AAF then Outcome(WrongSubtype, NoBad, BLANK)
    else if Read(h, StreamId) != p.streamId then Outcome(OtherStream, NoBad, BLANK)
    else
      var f := Judged(Checks(h, p), mode, NoBad);
      Outcome(f.status, f.bad, if f.status.Accepted? then Signals(h, payload, p) else BLANK)
  }

  // Before any field is checked, in this order: a profile without samples and a length that
  // is not the profile's are malformed, another subtype and another stream are set aside,
  // and nothing is reported.
  lemma StatusIs(h: Row, payload: seq<u8>, len: nat, p: Profile, mode: Mode)
    requires Shaped(h) && Backed(payload, len)
    ensures var r := Parsed(h, payload, len, p, mode);
            var bytes := if p.format == 4 then 2 else if p.format == 3 then 3 else 4;
            var sized := p.channels > 0 && p.framesPerPdu > 0 && 1 <= p.format <= 5
              && len == 24 + bytes * p.channels * p.framesPerPdu;
            && (r.status.Malformed? <==> !sized)
            && (r.status.WrongSubtype? <==> sized && Read(h, Subtype) != 0x02)
            && (r.status.OtherStream? <==> sized && Read(h, Subtype) == 0x02 && Read(h, StreamId) != p.streamId)
            && (!r.status.Accepted? ==> r.info == Info(false, 0, 0, []))
            && (r.status in {Malformed, WrongSubtype, OtherStream} ==> r.bad == NoBad)
  {
    hide Read, Judged, Checks;
    var checks := Checks(h, p);
    if !Judged(checks, mode, NoBad).status.Accepted? {
      var k := FirstRejection(checks, mode, NoBad);
    }
    var bytes := if p.format == 4 then 2 else if p.format == 3 then 3 else 4;
    assert Usable(p) ==> DataLen(p) == bytes * p.channels * p.framesPerPdu;
  }

  // An AAF packet in memory; its setters rewrite header words in place.
  class Pdu {
    var header: Row
    var payload: seq<u8>

    constructor (payload: seq<u8>)
      ensures header == Cleared(WIDTHS) && this.payload == payload
    {
      header := Cleared(WIDTHS);
      this.payload := payload;
    }

    method Put(f: Field, value: nat)
      requires Shaped(header)
      modifies this`header
      ensures header == Write(old(header), f, value)
    {
      FieldsFit(f);
      if f == StreamId {
        header := header[1 := Bits(value, 64)];
      } else if f == Timestamp {
        header := header[2 := Bits(value, 32)];
      } else if Narrow(f) {
        header := Set(header, Layout(f), value % U32);
      } else {
        header := Set(header, Layout(f), value);
      }
    }

    method PutAll(settings: seq<Setting<Field>>)
      requires Shaped(header)
      modifies this`header
      ensures AllInLayout(Table(Layout, settings), WIDTHS)
      ensures header == Filled(old(header), Table(Layout, settings))
    {
      AllLaidOut();
      hide Write, Set, Layout;
      for i := 0 to |settings|
        invariant Shaped(header)
        invariant header == Filled(old(header), Table(Layout, settings[..i]))
      {
        OneTable(header, settings[i].field, settings[i].value);
        Put(settings[i].field, settings[i].value);
        assert Table(Layout, settings[..i + 1])[..i] == Table(Layout, settings[..i]);
      }
      assert settings[..|settings|] == settings;
    }

    // The header becomes the profile's, whatever was there; the payload stays.
    method Init(p: Profile)
      modifies this`header
      ensures header == Encoded(p)
    {
      hide Filled, Layout;
      header := Cleared(WIDTHS);
      PutAll(PREAMBLE);
      PutAll(Settings(p));
      FilledInTurn(Cleared(WIDTHS), Table(Layout, PREAMBLE), Table(Layout, Settings(p)));
      assert Table(Layout, PREAMBLE) + Table(Layout, Settings(p)) == Table(Layout, PREAMBLE + Settings(p));
    }

    method Parse(len: nat, p: Profile, mode: Mode, out: Report<Info>) returns (status: Status)
      requires Shaped(header) && Backed(payload, len)
      modifies out
      ensures out.Answer(status) == Parsed(header, payload, len, p, mode)
    {
      hide Read, Judged, DataLen;
      out.bad := NoBad;
      out.info := BLANK;
      if p.channels == 0 || p.framesPerPdu == 0 || SampleSize(p.format) == 0 {
        return Malformed;
      }
      if len != PduSize(p) {
        return Malformed;
      }
      if Read(header, Subtype) != SUBTYPE_AAF {
        return WrongSubtype;
      }
      if Read(header, StreamId) != p.streamId {
        return OtherStream;
      }
      status := out.CheckAll([Version0(header)], mode);
      JudgedInTurn([Version0(header)], FieldChecks(header, p), mode, NoBad);
      if status != Accepted {
        return;
      }
      status := out.CheckAll(FieldChecks(header, p), mode);
      if status != Accepted {
        return;
      }
      out.info := Info(true, Read(header, Timestamp), Read(header, SeqNum), payload[..DataLen(p)]);
    }
  }

  // --- what a talker's header says --------------------------------------------------

  lemma ListedSettings(p: Profile)
    ensures var s := PREAMBLE + Settings(p);
            && |s| == 10
            && s[0] == Setting(Subtype, SUBTYPE_AAF)
            && s[1] == Setting(Sv, 1)
            && s[2] == Setting(Tv, 1)
            && s[3] == Setting(StreamId, p.streamId)
            && s[4] == Setting(Format, p.format)
            && s[5] == Setting(Nsr, p.nsr)
            && s[6] == Setting(ChanPerFrame, p.channels)
            && s[7] == Setting(BitDepth, p.bitDepth)
            && s[8] == Setting(StreamDataLen, DataLen(p))
            && s[9] == Setting(Sp, p.sp)
  {
  }

  // A setting that fits its field is read back whole.
  lemma EncodedFits(p: Profile, k: nat)
    requires k < |PREAMBLE + Settings(p)|
    requires var s := (PREAMBLE + Settings(p))[k]; s.value < Pow2(Width(s.field))
    ensures var s := (PREAMBLE + Settings(p))[k]; Read(Encoded(p), s.field) == s.value
  {
    hide Read, Encoded, Pow2, Settings, Width, Layout;
    EncodedHolds(p, k);
  }

  // The fields a profile can overflow.
  lemma EncodedCut(p: Profile)
    ensures Read(Encoded(p), Nsr) == p.nsr % 16
    ensures Read(Encoded(p), StreamDataLen) == DataLen(p) % 0x1_0000
    ensures Read(Encoded(p), Sp) == p.sp % 2
  {
    hide Read, Encoded, Pow2, Settings, DataLen;
    FieldWidths();
    ListedSettings(p);
    EncodedHolds(p, 5);
    EncodedHolds(p, 8);
    EncodedHolds(p, 9);
  }

  lemma EncodedFields(p: Profile)
    ensures var h := Encoded(p);
            && Read(h, Subtype) == SUBTYPE_AAF
            && Read(h, Version) == 0
            && Read(h, Sv) == 1
            && Read(h, Tv) == 1
            && Read(h, StreamId) == p.streamId
            && Read(h, Format) == p.format
            && Read(h, Nsr) == p.nsr % 16
            && Read(h, ChanPerFrame) == p.channels
            && Read(h, BitDepth) == p.bitDepth
            && Read(h, StreamDataLen) == DataLen(p) % 0x1_0000
            && Read(h, Sp) == p.sp % 2
            && Read(h, Timestamp) == 0 && Read(h, SeqNum) == 0
  {
    hide Read, Encoded, Pow2, Settings, DataLen;
    FieldWidths();
    ListedSettings(p);
    EncodedFits(p, 0);
    EncodedFits(p, 1);
    EncodedFits(p, 2);
    EncodedFits(p, 3);
    EncodedFits(p, 4);
    EncodedFits(p, 6);
    EncodedFits(p, 7);
    EncodedCut(p);
    EncodedZero(p, Version);
    EncodedZero(p, Timestamp);
    EncodedZero(p, SeqNum);
  }

  // The header of an encoded profile as the numbers in its words.
  lemma EncodedWords(p: Profile)
    requires Encodable(p)
    ensures var h := Encoded(p);
            && |h| == 5 && Widths(h) == [32, 64, 32, 32, 32]
            && Value(h[0]) == SUBTYPE_AAF * 0x100_0000 + 0x80_0000 + 0x1_0000
            && Value(h[1]) == p.streamId
            && Value(h[2]) == 0
            && Value(h[3]) == p.format * 0x100_0000 + p.nsr * 0x10_0000 + p.channels * 0x100 + p.bitDepth
            && Value(h[4]) == DataLen(p) * 0x1_0000 + p.sp * 0x1000
  {
    AllLaidOut();
    FieldsDiffer(p);
    hide Value, Filled, Cleared, Widths, LaidOut, Distinct, Sum, Settings, Encodable, DataLen;
    forall w: nat | w < 5
      ensures |Encoded(p)| == 5
      ensures Value(Encoded(p)[w]) == Sum(Layout, PREAMBLE + Settings(p), w, |PREAMBLE + Settings(p)|)
    {
      WordIsSum(WIDTHS, Layout, PREAMBLE + Settings(p), w);
    }
    SumIs(p, 0);
    SumIs(p, 1);
    SumIs(p, 2);
    SumIs(p, 3);
    SumIs(p, 4);
  }

  lemma SumIs(p: Profile, w: nat)
    requires Encodable(p) && w < 5
    ensures |PREAMBLE + Settings(p)| == 10
    ensures Sum(Layout, PREAMBLE + Settings(p), w, 10) ==
            if w == 0 then SUBTYPE_AAF * 0x100_0000 + 0x80_0000 + 0x1_0000
            else if w == 1 then p.streamId
            else if w == 2 then 0
            else if w == 3 then p.format * 0x100_0000 + p.nsr * 0x10_0000 + p.channels * 0x100 + p.bitDepth
            else DataLen(p) * 0x1_0000 + p.sp * 0x1000
  {
    var s := PREAMBLE + Settings(p);
    ListedSettings(p);
    FieldWidths();
    FieldShifts();
    hide Pow2, Settings, Adds, Sum, DataLen;
    AddsIs(Layout, s[0], w, 0x100_0000, 0x100);
    AddsIs(Layout, s[1], w, 0x80_0000, 2);
    AddsIs(Layout, s[2], w, 0x1_0000, 2);
    AddsIs(Layout, s[3], w, 1, U64);
    AddsIs(Layout, s[4], w, 0x100_0000, 0x100);
    AddsIs(Layout, s[5], w, 0x10_0000, 16);
    AddsIs(Layout, s[6], w, 0x100, 0x400);
    AddsIs(Layout, s[7], w, 1, 0x100);
    AddsIs(Layout, s[8], w, 0x1_0000, 0x1_0000);
    AddsIs(Layout, s[9], w, 0x1000, 2);
    SumOfThree(Layout, s, w, 0);
    SumOfThree(Layout, s, w, 3);
    SumOfThree(Layout, s, w, 6);
    SumOfThree(Layout, s, w, 7);
  }

  lemma ListedChecks(h: Row, p: Profile)
    requires Shaped(h)
    ensures var c := Checks(h, p);
            && |c| == 8
            && c[0] == Check("version", Read(h, Version), 0, true)
            && c[1] == Check("tv", Read(h, Tv), 1, true)
            && c[2] == Check("format", Read(h, Format), p.format, true)
            && c[3] == Check("nsr", Read(h, Nsr), p.nsr, true)
            && c[4] == Check("chan_per_frame", Read(h, ChanPerFrame), p.channels, true)
            && c[5] == Check("stream_data_len", Read(h, StreamDataLen), DataLen(p), true)
            && c[6] == Check("bit_depth", Read(h, BitDepth), p.bitDepth, false)
            && c[7] == Check("sp", Read(h, Sp), p.sp, false)
  {
    hide Read, DataLen;
  }

  // A strict listener accepts a talker's packet exactly when the profile fits the
  // header, and then hands out the payload that was sent.
  lemma EncodeThenParse(p: Profile, payload: seq<u8>)
    requires Backed(payload, PduSize(p))
    ensures var r := Parsed(Encoded(p), payload, PduSize(p), p, Strict);
            && (r.status.Accepted? <==> Encodable(p))
            && (Encodable(p) ==>
                  r == Outcome(Accepted, NoBad, Info(true, 0, 0, payload[..DataLen(p)])))
  {
    hide Read, Encoded, Judged, Checks, DataLen;
    EncodedFields(p);
    var h := Encoded(p);
    var checks := Checks(h, p);
    ListedChecks(h, p);
    CleanIffStrict(checks);
    AcceptedIff(checks, Strict, NoBad);
    assert checks[3].Rejects(Strict) <==> p.nsr >= 16;
    assert checks[5].Rejects(Strict) <==> DataLen(p) >= 0x1_0000;
    assert checks[7].Rejects(Strict) <==> p.sp >= 2;
  }

  // --- strict and lenient -----------------------------------------------------------

  // On every packet: strict acceptance is lenient acceptance with nothing to report,
  // and then both report the same.
  lemma StrictIsCleanLenient(h: Row, payload: seq<u8>, len: nat, p: Profile)
    requires Shaped(h) && Backed(payload, len)
    ensures var strict, lenient := Parsed(h, payload, len, p, Strict), Parsed(h, payload, len, p, Lenient);
            && (strict.status.Accepted? <==> lenient.status.Accepted? && lenient.bad == NoBad)
            && (strict.status.Accepted? ==> strict == lenient)
            && (!strict.status.Mismatch? && !strict.status.Accepted? ==> strict == lenient)
  {
    hide Read, Judged, DataLen;
    if Usable(p) && len == PduSize(p) {
      var checks := Checks(h, p);
      CleanIffStrict(checks);
      AcceptedIff(checks, Strict, NoBad);
      if !Judged(checks, Strict, NoBad).status.Accepted? {
        var k := FirstRejection(checks, Strict, NoBad);
      }
    }
  }

  predicate Ours(h: Row, len: nat, p: Profile)
    requires Shaped(h)
  {
    && Usable(p)
    && len == PduSize(p)
    && Read(h, Subtype) == SUBTYPE_AAF
    && Read(h, StreamId) == p.streamId
  }

  // Lenient rejects a packet of the stream exactly for a legacy field that disagrees,
  // and names one of them.
  lemma LenientRejectsFor(h: Row, payload: seq<u8>, len: nat, p: Profile)
    requires Shaped(h) && Backed(payload, len) && Ours(h, len, p)
    ensures var r := Parsed(h, payload, len, p, Lenient);
            && (r.status.Mismatch? <==>
                  || Read(h, Version) != 0 || Read(h, Tv) != 1 || Read(h, Format) != p.format
                  || Read(h, Nsr) != p.nsr || Read(h, ChanPerFrame) != p.channels
                  || Read(h, StreamDataLen) != DataLen(p))
            && (r.status.Mismatch? ==>
                  r.bad.Bad? && r.bad.name in
                  {"version", "tv", "format", "nsr", "chan_per_frame", "stream_data_len"})
            && (!r.status.Mismatch? ==> r.status.Accepted?)
  {
    hide Read, Judged, Checks, DataLen;
    var checks := Checks(h, p);
    ListedChecks(h, p);
    AcceptedIff(checks, Lenient, NoBad);
    if !Judged(checks, Lenient, NoBad).status.Accepted? {
      var k := FirstRejection(checks, Lenient, NoBad);
      assert checks[k].legacy;
    }
  }

  // Strict accepts a packet of the stream exactly when every checked field is the
  // profile's; the sv bit is not among them.
  lemma StrictAcceptsFor(h: Row, payload: seq<u8>, len: nat, p: Profile)
    requires Shaped(h) && Backed(payload, len) && Ours(h, len, p)
    ensures var r := Parsed(h, payload, len, p, Strict);
            && (r.status.Accepted? <==>
                  && Read(h, Version) == 0 && Read(h, Tv) == 1 && Read(h, Format) == p.format
                  && Read(h, Nsr) == p.nsr && Read(h, ChanPerFrame) == p.channels
                  && Read(h, StreamDataLen) == DataLen(p) && Read(h, BitDepth) == p.bitDepth
                  && Read(h, Sp) == p.sp)
            && (!r.status.Accepted? ==> r.status.Mismatch?)
  {
    hide Read, Judged, Checks, DataLen;
    var checks := Checks(h, p);
    ListedChecks(h, p);
    AcceptedIff(checks, Strict, NoBad);
    if !Judged(checks, Strict, NoBad).status.Accepted? {
      var k := FirstRejection(checks, Strict, NoBad);
    }
  }

  // What of a talker's packets a lenient listener lets through: exactly those of a usable
  // profile whose rate code and data length fit, whatever the sparse bit.
  lemma LenientTakes(p: Profile, payload: seq<u8>)
    requires Backed(payload, PduSize(p))
    ensures Parsed(Encoded(p), payload, PduSize(p), p, Lenient).status.Accepted? <==>
            Usable(p) && p.nsr < 16 && DataLen(p) < 0x1_0000
  {
    hide Read, Encoded, Judged, Checks, DataLen;
    EncodedFields(p);
    if Usable(p) {
      LenientRejectsFor(Encoded(p), payload, PduSize(p), p);
    }
  }

  // An instance: a sparse code too wide for its bit goes out truncated; a lenient listener
  // takes the packet and only reports it.
  lemma WideSparseSlipsThrough(p: Profile, payload: seq<u8>)
    requires Backed(payload, PduSize(p))
    requires Usable(p) && p.nsr < 16 && DataLen(p) < 0x1_0000 && p.sp >= 2
    ensures Parsed(Encoded(p), payload, PduSize(p), p, Lenient) ==
            Outcome(Accepted, Bad("sp", p.sp % 2, p.sp), Info(true, 0, 0, payload[..DataLen(p)]))
  {
    hide Read, Encoded, Judged, Checks, DataLen;
    EncodedFields(p);
    var checks := Checks(Encoded(p), p);
    ListedChecks(Encoded(p), p);
    AcceptedIff(checks, Lenient, NoBad);
    LastReported(checks, Lenient, NoBad, 7);
  }

  // --- sequence number and timestamp ------------------------------------------------

  // A talker's packet: the profile's header with sequence number and timestamp put in.
  function TalkerHeader(p: Profile, seqNum: nat, time: nat): Row {
    var h := Encoded(p);
    OneTable(h, SeqNum, seqNum);
    Write(Write(h, SeqNum, seqNum), Timestamp, time)
  }

  lemma TalkerReads(p: Profile, seqNum: nat, time: nat, f: Field)
    requires seqNum < 0x100 && time < U32
    ensures var h := TalkerHeader(p, seqNum, time);
            && Shaped(h)
            && Read(h, f) ==
               if f == SeqNum then seqNum else if f == Timestamp then time else Read(Encoded(p), f)
  {
    hide Read, Write, Encoded, Pow2;
    FieldWidths();
    var h := Encoded(p);
    WriteThenRead(h, SeqNum, seqNum, f);
    WriteThenRead(Write(h, SeqNum, seqNum), Timestamp, time, f);
  }

  // In either mode a talker's packet is accepted as it was meant: its timestamp is reported
  // as the timestamp, its number as the sequence number, and its samples are handed out.
  lemma TalkerPacketParses(p: Profile, mode: Mode, seqNum: nat, time: nat, payload: seq<u8>)
    requires Encodable(p) && seqNum < 0x100 && time < U32 && Backed(payload, PduSize(p))
    ensures var h := TalkerHeader(p, seqNum, time);
            && Shaped(h)
            && Parsed(h, payload, PduSize(p), p, mode) ==
               Outcome(Accepted, NoBad, Info(true, time, seqNum, payload[..DataLen(p)]))
  {
    hide Read, Encoded, Parsed, TalkerHeader, DataLen;
    var h := TalkerHeader(p, seqNum, time);
    forall f: Field
      ensures Shaped(h)
      ensures Read(h, f) ==
              if f == SeqNum then seqNum else if f == Timestamp then time else Read(Encoded(p), f)
    {
      TalkerReads(p, seqNum, time, f);
    }
    TalkerReads(p, seqNum, time, SeqNum);
    EncodedFields(p);
    StrictAcceptsFor(h, payload, PduSize(p), p);
    StrictIsCleanLenient(h, payload, PduSize(p), p);
    AcceptedSignals(h, payload, PduSize(p), p, mode);
  }

  lemma AcceptedSignals(h: Row, payload: seq<u8>, len: nat, p: Profile, mode: Mode)
    requires Shaped(h) && Backed(payload, len)
    requires Parsed(h, payload, len, p, mode).status.Accepted?
    ensures DataLen(p) <= |payload|
    ensures Parsed(h, payload, len, p, mode).info == Signals(h, payload, p)
  {
    hide Read, Judged, DataLen;
  }
}
