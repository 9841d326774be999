/**
 A packet header as a row of words, fields as slots in it, and the two things a
 codec needs of any field table: a write is read back cut to the field's width, and
 it is not seen through any other slot.
 */
module Header {
  import opened BitField
  import opened Words

  type Row = seq<Word>

  datatype Slot = Slot(word: nat, place: Place)

  // A field by numbers: its header word, what its lowest bit is worth there, and how many
  // values it has.
  datatype Digit = Digit(word: nat, unit: pos, size: pos)

  type pos = x: nat | x > 0 witness 1

  // A field that a table of writes sets, with its value.
  datatype Entry = Entry(slot: Slot, value: nat)

  function Widths(h: Row): (s: seq<nat>)
    ensures |s| == |h| && forall i :: 0 <= i < |h| ==> s[i] == |h[i]|
  {
    seq(|h|, i requires 0 <= i < |h| => |h[i]|)
  }

  predicate InLayout(s: Slot, widths: seq<nat>) {
    s.word < |widths| && Within(s.place, widths[s.word])
  }

  predicate Disjoint(s: Slot, t: Slot) {
    s.word != t.word || Apart(s.place, t.place)
  }

  // The header after memset.
  function Cleared(widths: seq<nat>): (h: Row)
    ensures Widths(h) == widths
  {
    seq(|widths|, i requires 0 <= i < |widths| => Bits(0, widths[i]))
  }

  function Get(h: Row, s: Slot): nat
    requires InLayout(s, Widths(h))
  {
    GetValue(h[s.word], s.place)
  }

  function Set(h: Row, s: Slot, value: nat): (g: Row)
    requires InLayout(s, Widths(h))
    ensures Widths(g) == Widths(h)
  {
    h[s.word := SetValue(h[s.word], value, s.place)]
  }

  lemma ReadBack(h: Row, s: Slot, value: nat)
    requires InLayout(s, Widths(h))
    ensures Get(Set(h, s, value), s) == value % Pow2(s.place.len)
  {
    hide GetValue, SetValue;
    GetAfterSet(h[s.word], value, s.place);
  }

  lemma Untouched(h: Row, s: Slot, value: nat, t: Slot)
    requires InLayout(s, Widths(h)) && InLayout(t, Widths(h)) && Disjoint(s, t)
    ensures Get(Set(h, s, value), t) == Get(h, t)
  {
    hide GetValue, SetValue;
    if s.word == t.word {
      GetElsewhere(h[s.word], value, s.place, t.place);
    }
  }

  lemma {:induction false} ClearedReadsZero(widths: seq<nat>, s: Slot)
    requires InLayout(s, widths)
    ensures Get(Cleared(widths), s) == 0
  {
    hide GetValue, Bits, Value;
    var n := widths[s.word];
    var p := s.place;
    GetIsSlice(Bits(0, n), p);
    forall i: nat | i < p.len
      ensures Bits(0, n)[p.shift + i] == Bits(0, p.len)[i]
    {
      ZeroBits(n, p.shift + i);
      ZeroBits(p.len, i);
    }
    assert Bits(0, n)[p.shift..p.shift + p.len] == Bits(0, p.len);
    ValueOfBits(0, p.len);
  }

  // --- a table of writes ------------------------------------------------------------

  predicate AllInLayout(table: seq<Entry>, widths: seq<nat>) {
    forall i :: 0 <= i < |table| ==> InLayout(table[i].slot, widths)
  }

  predicate PairwiseDisjoint(table: seq<Entry>) {
    forall i, j :: 0 <= i < j < |table| ==> Disjoint(table[i].slot, table[j].slot)
  }

  predicate MissedBy(s: Slot, table: seq<Entry>) {
    forall i :: 0 <= i < |table| ==> Disjoint(table[i].slot, s)
  }

  // The entries written one after the other.
  function Filled(h: Row, table: seq<Entry>): (g: Row)
    requires AllInLayout(table, Widths(h))
    ensures Widths(g) == Widths(h)
    decreases |table|
  {
    if table == [] then h
    else
      var n := |table| - 1;
      var before := Filled(h, table[..n]);
      Set(before, table[n].slot, table[n].value)
  }

  lemma {:induction false} FilledElsewhere(h: Row, table: seq<Entry>, s: Slot)
    requires AllInLayout(table, Widths(h)) && InLayout(s, Widths(h)) && MissedBy(s, table)
    ensures Get(Filled(h, table), s) == Get(h, s)
    decreases |table|
  {
    hide Get, Set;
    if table != [] {
      var n := |table| - 1;
      FilledElsewhere(h, table[..n], s);
      Untouched(Filled(h, table[..n]), table[n].slot, table[n].value, s);
    }
  }

  // Every entry of a table of disjoint fields is there at the end, cut to its width.
  lemma {:induction false} FilledHolds(h: Row, table: seq<Entry>, k: nat)
    requires AllInLayout(table, Widths(h)) && PairwiseDisjoint(table) && k < |table|
    ensures Get(Filled(h, table), table[k].slot) == table[k].value % Pow2(table[k].slot.place.len)
    decreases |table|
  {
    hide Get, Set, Pow2;
    var n := |table| - 1;
    var before := Filled(h, table[..n]);
    if k == n {
      ReadBack(before, table[n].slot, table[n].value);
    } else {
      FilledHolds(h, table[..n], k);
      Untouched(before, table[n].slot, table[n].value, table[k].slot);
    }
  }

  lemma FilledLast(h: Row, table: seq<Entry>, n: nat)
    requires AllInLayout(table, Widths(h)) && |table| == n + 1
    ensures Filled(h, table) == Set(Filled(h, table[..n]), table[n].slot, table[n].value)
  {
  }

  lemma {:induction false} FilledInTurn(h: Row, a: seq<Entry>, b: seq<Entry>)
    requires AllInLayout(a, Widths(h)) && AllInLayout(b, Widths(h))
    ensures Filled(Filled(h, a), b) == Filled(h, a + b)
    decreases |b|
  {
    hide Set, Filled, Widths, InLayout;
    if b == [] {
      assert a + b == a;
      FilledNone(Filled(h, a));
    } else {
      var n := |b| - 1;
      FilledInTurn(h, a, b[..n]);
      FilledLast(Filled(h, a), b, n);
      FilledLast(h, a + b, |a| + n);
      assert (a + b)[..|a| + n] == a + b[..n];
    }
  }

  lemma FilledNone(h: Row)
    ensures Filled(h, []) == h
  {
  }

  lemma GetOnWire(h: Row, s: Slot)
    requires InLayout(s, Widths(h))
    ensures Get(h, s) == Value(h[s.word]) / Pow2(s.place.shift) % Pow2(s.place.len)
  {
    hide GetValue, Value, Pow2;
    GetIsDigits(h[s.word], s.place);
  }

  // What one entry contributes to the number in word w.
  function Contribution(e: Entry, w: nat): nat {
    if e.slot.word == w then Pow2(e.slot.place.shift) * (e.value % Pow2(e.slot.place.len)) else 0
  }

  function Total(table: seq<Entry>, w: nat, k: nat): nat
    requires k <= |table|
  {
    if k == 0 then 0 else Total(table, w, k - 1) + Contribution(table[k - 1], w)
  }

  // Filling a cleared header with disjoint fields: every word is the sum of its fields'
  // values, each cut to its width, at their places.
  lemma {:induction false} FilledTotal(widths: seq<nat>, table: seq<Entry>, w: nat, k: nat)
    requires AllInLayout(table, widths) && PairwiseDisjoint(table) && w < |widths| && k <= |table|
    ensures Value(Filled(Cleared(widths), table[..k])[w]) == Total(table, w, k)
    decreases k
  {
    hide Get, Set, Value, Contribution, Bits, Disjoint, Widths;
    if k == 0 {
      assert table[..0] == [];
      ValueOfBits(0, widths[w]);
    } else {
      FilledTotal(widths, table, w, k - 1);
      var e, before := table[k - 1], Filled(Cleared(widths), table[..k - 1]);
      assert table[..k][..k - 1] == table[..k - 1];
      FilledElsewhere(Cleared(widths), table[..k - 1], e.slot);
      ClearedReadsZero(widths, e.slot);
      SetContributes(before, e, w);
    }
  }

  lemma SetContributes(h: Row, e: Entry, w: nat)
    requires InLayout(e.slot, Widths(h)) && Get(h, e.slot) == 0 && w < |h|
    ensures |Set(h, e.slot, e.value)| == |h|
    ensures Value(Set(h, e.slot, e.value)[w]) == Value(h[w]) + Contribution(e, w)
  {
    hide GetValue, SetValue, Value, Pow2;
    if e.slot.word == w {
      SetAdds(h[w], e.value, e.slot.place);
    }
  }

  // --- the fields of one packet format ----------------------------------------------

  // A field of some format, with the value it is set to.
  datatype Setting<F> = Setting(field: F, value: nat)

  // The fields of a format fit its words and share no bit.
  ghost predicate LaidOut<F(!new)>(layout: F -> Slot, widths: seq<nat>) {
    && (forall f: F :: InLayout(layout(f), widths))
    && (forall f: F, g: F :: f != g ==> Disjoint(layout(f), layout(g)))
  }

  predicate Distinct<F(==)>(settings: seq<Setting<F>>) {
    forall i, j :: 0 <= i < j < |settings| ==> settings[i].field != settings[j].field
  }

  predicate Mentions<F(==)>(settings: seq<Setting<F>>, f: F) {
    exists i :: 0 <= i < |settings| && settings[i].field == f
  }

  function Table<F>(layout: F -> Slot, settings: seq<Setting<F>>): (t: seq<Entry>)
    ensures |t| == |settings|
    ensures forall i :: 0 <= i < |t| ==> t[i] == Entry(layout(settings[i].field), settings[i].value)
  {
    seq(|settings|, i requires 0 <= i < |settings| => Entry(layout(settings[i].field), settings[i].value))
  }

  // Every field set holds its setting, cut to its width.
  lemma SettingHolds<F(!new)>(h: Row, layout: F -> Slot, settings: seq<Setting<F>>, k: nat)
    requires LaidOut(layout, Widths(h)) && Distinct(settings) && k < |settings|
    ensures var slot := layout(settings[k].field);
            Get(Filled(h, Table(layout, settings)), slot) == settings[k].value % Pow2(slot.place.len)
  {
    hide Get, Filled, Pow2, Disjoint, InLayout;
    FilledHolds(h, Table(layout, settings), k);
  }

  // The fields no setting names are left at zero.
  lemma UnsetIsZero<F(!new)>(widths: seq<nat>, layout: F -> Slot, settings: seq<Setting<F>>, f: F)
    requires LaidOut(layout, widths) && !Mentions(settings, f)
    ensures Get(Filled(Cleared(widths), Table(layout, settings)), layout(f)) == 0
  {
    hide Get, Filled, Cleared, Disjoint, InLayout;
    FilledElsewhere(Cleared(widths), Table(layout, settings), layout(f));
    ClearedReadsZero(widths, layout(f));
  }

  // What one setting adds to the number in word w, and what the first k do together.
  function Adds<F>(layout: F -> Slot, s: Setting<F>, w: nat): nat {
    Contribution(Entry(layout(s.field), s.value), w)
  }

  function Sum<F>(layout: F -> Slot, settings: seq<Setting<F>>, w: nat, k: nat): nat
    requires k <= |settings|
  {
    if k == 0 then 0 else Sum(layout, settings, w, k - 1) + Adds(layout, settings[k - 1], w)
  }

  lemma SumOfThree<F>(layout: F -> Slot, settings: seq<Setting<F>>, w: nat, k: nat)
    requires k + 3 <= |settings|
    ensures Sum(layout, settings, w, 0) == 0
    ensures Sum(layout, settings, w, k + 1) == Sum(layout, settings, w, k) + Adds(layout, settings[k], w)
    ensures Sum(layout, settings, w, k + 3) == Sum(layout, settings, w, k)
      + Adds(layout, settings[k], w) + Adds(layout, settings[k + 1], w) + Adds(layout, settings[k + 2], w)
  {
    hide Adds;
    assert Sum(layout, settings, w, k + 1) == Sum(layout, settings, w, k) + Adds(layout, settings[k], w);
    assert Sum(layout, settings, w, k + 2) == Sum(layout, settings, w, k + 1) + Adds(layout, settings[k + 1], w);
  }

  lemma AddsIs<F>(layout: F -> Slot, s: Setting<F>, w: nat, unit: nat, size: nat)
    requires Pow2(layout(s.field).place.shift) == unit && Pow2(layout(s.field).place.len) == size && s.value < size
    ensures Adds(layout, s, w) == if layout(s.field).word == w then unit * s.value else 0
  {
    hide Pow2;
    SmallMod(s.value, size);
  }

  lemma SmallMod(v: nat, n: nat)
    requires v < n
    ensures v % n == v
  {
  }

  lemma {:induction false} SumIsTotal<F>(layout: F -> Slot, settings: seq<Setting<F>>, w: nat, k: nat)
    requires k <= |settings|
    ensures Sum(layout, settings, w, k) == Total(Table(layout, settings), w, k)
  {
    hide Contribution;
    if k > 0 {
      SumIsTotal(layout, settings, w, k - 1);
    }
  }

  // The words of a filled header are the sums of their settings.
  lemma WordIsSum<F(!new)>(widths: seq<nat>, layout: F -> Slot, settings: seq<Setting<F>>, w: nat)
    requires LaidOut(layout, widths) && Distinct(settings) && w < |widths|
    ensures |Widths(Filled(Cleared(widths), Table(layout, settings)))| == |widths|
    ensures Value(Filled(Cleared(widths), Table(layout, settings))[w]) == Sum(layout, settings, w, |settings|)
  {
    hide Value, Filled, Cleared, Disjoint, InLayout, Total, Sum;
    var table := Table(layout, settings);
    FilledTotal(widths, table, w, |table|);
    assert table[..|table|] == table;
    SumIsTotal(layout, settings, w, |settings|);
  }
}
