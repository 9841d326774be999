/**
 Fields packed into header words: a field is a run of bits, read with a mask and a
 shift and written back the same way.

 A header word is the sequence of its bits in host order, lowest bit first.  The
 macros are spelled with the bit operations they use; a field value is a number.
 */
module BitField {
  import opened Words

  type Word = seq<bool>

  // A field: its lowest bit and its width.
  datatype Place = Place(shift: nat, len: nat)

  predicate Within(p: Place, width: nat) {
    p.shift + p.len <= width
  }

  predicate Apart(p: Place, q: Place) {
    p.shift + p.len <= q.shift || q.shift + q.len <= p.shift
  }

  // --- numbers and their bits -------------------------------------------------------

  function Bits(value: nat, width: nat): (w: Word)
    ensures |w| == width
  {
    if width == 0 then [] else [value % 2 == 1] + Bits(value / 2, width - 1)
  }

  function Value(w: Word): nat {
    if w == [] then 0 else (if w[0] then 1 else 0) + 2 * Value(w[1..])
  }

  lemma {:induction false} ValueIsBelow(w: Word)
    ensures Value(w) < Pow2(|w|)
  {
    if w != [] {
      ValueIsBelow(w[1..]);
    }
  }

  // A number written into a word keeps its residue: the bits beyond the width are lost.
  lemma {:induction false} ValueOfBits(value: nat, width: nat)
    ensures Value(Bits(value, width)) == value % Pow2(width)
    decreases width
  {
    if width > 0 {
      var w := Bits(value, width);
      assert w[1..] == Bits(value / 2, width - 1);
      ValueOfBits(value / 2, width - 1);
      HalvedMod(value, Pow2(width - 1), Pow2(width));
    }
  }

  // A word is its value: the two conversions undo each other.
  lemma {:induction false} BitsOfValue(w: Word)
    ensures Bits(Value(w), |w|) == w
  {
    if w != [] {
      var rest := Value(w[1..]);
      assert Value(w) / 2 == rest && (Value(w) % 2 == 1) == w[0];
      BitsOfValue(w[1..]);
    }
  }

  lemma {:induction false} PrefixOfBits(value: nat, width: nat, len: nat)
    requires len <= width
    ensures Bits(value, width)[..len] == Bits(value, len)
    decreases len
  {
    if len > 0 {
      PrefixOfBits(value / 2, width - 1, len - 1);
      assert Bits(value, width)[..len] == [value % 2 == 1] + Bits(value / 2, width - 1)[..len - 1];
    }
  }

  // --- the macros -------------------------------------------------------------------

  function AndBits(a: Word, b: Word): Word
    requires |a| == |b|
  {
    seq(|a|, i requires 0 <= i < |a| && |a| == |b| => a[i] && b[i])
  }

  function OrBits(a: Word, b: Word): Word
    requires |a| == |b|
  {
    seq(|a|, i requires 0 <= i < |a| && |a| == |b| => a[i] || b[i])
  }

  function NotBits(a: Word): Word {
    seq(|a|, i requires 0 <= i < |a| => !a[i])
  }

  function ShiftLeft(a: Word, s: nat): Word {
    seq(|a|, i requires 0 <= i < |a| => i >= s && a[i - s])
  }

  function ShiftRight(a: Word, s: nat): Word {
    seq(|a|, i requires 0 <= i < |a| => i + s < |a| && a[i + s])
  }

  function Mask(p: Place, width: nat): (w: Word)
    requires Within(p, width)
    ensures |w| == width
  {
    ShiftLeft(Bits(Pow2(p.len) - 1, width), p.shift)
  }

  function GetValue(word: Word, p: Place): nat
    requires Within(p, |word|)
  {
    Value(ShiftRight(AndBits(word, Mask(p, |word|)), p.shift))
  }

  // The new value enters at the word's own width: what lies above is shifted out or
  // masked off.
  function SetValue(word: Word, value: nat, p: Place): (w: Word)
    requires Within(p, |word|)
    ensures |w| == |word|
  {
    var mask := Mask(p, |word|);
    OrBits(AndBits(word, NotBits(mask)), AndBits(ShiftLeft(Bits(value, |word|), p.shift), mask))
  }

  // --- what they do -----------------------------------------------------------------

  lemma {:induction false} OnesBits(len: nat, width: nat, i: nat)
    requires len <= width && i < width
    ensures Bits(Pow2(len) - 1, width)[i] == (i < len)
    decreases width
  {
    if len == 0 {
      ZeroBits(width, i);
    } else {
      assert (Pow2(len) - 1) / 2 == Pow2(len - 1) - 1;
      if i > 0 {
        OnesBits(len - 1, width - 1, i - 1);
      }
    }
  }

  lemma {:induction false} ZeroBits(width: nat, i: nat)
    requires i < width
    ensures !Bits(0, width)[i]
    decreases width
  {
    if i > 0 {
      ZeroBits(width - 1, i - 1);
    }
  }

  lemma MaskBit(p: Place, width: nat, i: nat)
    requires Within(p, width) && i < width
    ensures Mask(p, width)[i] == (p.shift <= i < p.shift + p.len)
  {
    if i >= p.shift {
      OnesBits(p.len, width, i - p.shift);
    }
  }

  lemma SetShape(word: Word, value: nat, p: Place, i: nat)
    requires Within(p, |word|) && i < |word|
    ensures SetValue(word, value, p)[i] ==
            if Mask(p, |word|)[i] then i >= p.shift && Bits(value, |word|)[i - p.shift] else word[i]
  {
    hide Mask, Bits, Pow2;
  }

  // Writing a field changes its own bits and no other.
  lemma SetBit(word: Word, value: nat, p: Place, i: nat)
    requires Within(p, |word|) && i < |word|
    ensures SetValue(word, value, p)[i] ==
            if p.shift <= i < p.shift + p.len then Bits(value, |word|)[i - p.shift] else word[i]
  {
    hide Mask, Bits, SetValue;
    SetShape(word, value, p, i);
    MaskBit(p, |word|, i);
  }

  lemma {:induction false} TrailingZeros(w: Word, len: nat)
    requires len <= |w| && forall i :: len <= i < |w| ==> !w[i]
    ensures Value(w) == Value(w[..len])
    decreases |w|
  {
    if w != [] {
      if len == 0 {
        TrailingZeros(w[1..], 0);
        assert w[..0] == [];
      } else {
        TrailingZeros(w[1..], len - 1);
        assert w[..len][1..] == w[1..][..len - 1];
      }
    }
  }

  // A read is the number written in the field's bits.
  lemma GetIsSlice(word: Word, p: Place)
    requires Within(p, |word|)
    ensures GetValue(word, p) == Value(word[p.shift..p.shift + p.len])
  {
    hide Mask, Value;
    var mask := Mask(p, |word|);
    var read := ShiftRight(AndBits(word, mask), p.shift);
    forall i: nat | i < |word|
      ensures read[i] == (i < p.len && word[i + p.shift])
    {
      if i + p.shift < |word| {
        MaskBit(p, |word|, i + p.shift);
      }
    }
    TrailingZeros(read, p.len);
    assert read[..p.len] == word[p.shift..p.shift + p.len];
  }

  lemma {:induction false} BitOfPrefix(value: nat, width: nat, len: nat, i: nat)
    requires i < len <= width
    ensures Bits(value, width)[i] == Bits(value, len)[i]
  {
    PrefixOfBits(value, width, len);
    assert Bits(value, width)[..len][i] == Bits(value, width)[i];
  }

  // Set then get: the value, cut to the field's width.
  lemma GetAfterSet(word: Word, value: nat, p: Place)
    requires Within(p, |word|)
    ensures GetValue(SetValue(word, value, p), p) == value % Pow2(p.len)
  {
    hide GetValue, SetValue, Value, Bits;
    var w := SetValue(word, value, p);
    GetIsSlice(w, p);
    forall i: nat | i < p.len
      ensures w[p.shift + i] == Bits(value, p.len)[i]
    {
      SetBit(word, value, p, p.shift + i);
      BitOfPrefix(value, |word|, p.len, i);
    }
    assert w[p.shift..p.shift + p.len] == Bits(value, p.len);
    ValueOfBits(value, p.len);
  }

  // Setting one field leaves every field apart from it unread.
  lemma GetElsewhere(word: Word, value: nat, p: Place, q: Place)
    requires Within(p, |word|) && Within(q, |word|) && Apart(p, q)
    ensures GetValue(SetValue(word, value, p), q) == GetValue(word, q)
  {
    hide GetValue, SetValue, Value, Bits;
    var w := SetValue(word, value, p);
    GetIsSlice(w, q);
    GetIsSlice(word, q);
    forall i | q.shift <= i < q.shift + q.len
      ensures w[i] == word[i]
    {
      SetBit(word, value, p, i);
    }
    assert w[q.shift..q.shift + q.len] == word[q.shift..q.shift + q.len];
  }

  // Writing back what was read changes nothing.
  lemma SetWhatIsThere(word: Word, p: Place)
    requires Within(p, |word|)
    ensures SetValue(word, GetValue(word, p), p) == word
  {
    hide GetValue, SetValue, Value, Bits;
    var there := word[p.shift..p.shift + p.len];
    GetIsSlice(word, p);
    BitsOfValue(there);
    forall i: nat | i < |word|
      ensures SetValue(word, GetValue(word, p), p)[i] == word[i]
    {
      SetBit(word, GetValue(word, p), p, i);
      if p.shift <= i < p.shift + p.len {
        BitOfPrefix(Value(there), |word|, p.len, i - p.shift);
      }
    }
  }

  // A field as wide as its word is the word.
  lemma WholeWord(word: Word, value: nat)
    ensures GetValue(word, Place(0, |word|)) == Value(word)
    ensures SetValue(word, value, Place(0, |word|)) == Bits(value, |word|)
  {
    hide GetValue, SetValue, Value, Bits;
    var p := Place(0, |word|);
    GetIsSlice(word, p);
    assert word[0..|word|] == word;
    forall i: nat | i < |word|
      ensures SetValue(word, value, p)[i] == Bits(value, |word|)[i]
    {
      SetBit(word, value, p, i);
    }
  }

  // --- fields as digits of the word's number ----------------------------------------

  lemma {:induction false} ValueSplit(w: Word, k: nat)
    requires k <= |w|
    ensures Value(w) == Value(w[..k]) + Pow2(k) * Value(w[k..])
    decreases k
  {
    hide Value, Pow2;
    if k == 0 {
      ValueOfNone(w);
    } else {
      var rest := w[1..];
      ValueSplit(rest, k - 1);
      LowestBit(w);
      LowestBit(w[..k]);
      assert w[..k][1..] == rest[..k - 1] && w[k..] == rest[k - 1..];
      Pow2Next(k - 1);
      DoubledProduct(Pow2(k - 1), Value(w[k..]));
    }
  }

  lemma ValueOfNone(w: Word)
    ensures Value(w) == Value(w[..0]) + Pow2(0) * Value(w[0..])
  {
    assert w[0..] == w && w[..0] == [];
  }

  lemma LowestBit(w: Word)
    requires w != []
    ensures Value(w) == (if w[0] then 1 else 0) + 2 * Value(w[1..])
  {
  }

  lemma Pow2Next(k: nat)
    ensures Pow2(k + 1) == 2 * Pow2(k)
  {
  }

  lemma DoubledProduct(a: nat, b: nat)
    ensures 2 * (a * b) == (2 * a) * b
  {
  }

  // A field in the number its word stands for: divide by what is below, drop what is above.
  lemma GetIsDigits(word: Word, p: Place)
    requires Within(p, |word|)
    ensures GetValue(word, p) == Value(word) / Pow2(p.shift) % Pow2(p.len)
  {
    hide GetValue, Value, Pow2;
    GetIsSlice(word, p);
    var low, high := word[..p.shift], word[p.shift..];
    ValueSplit(word, p.shift);
    ValueIsBelow(low);
    DivModUnique(Value(word), Pow2(p.shift), Value(high), Value(low));
    ValueSplit(high, p.len);
    assert high[..p.len] == word[p.shift..p.shift + p.len];
    ValueIsBelow(high[..p.len]);
    DivModUnique(Value(high), Pow2(p.len), Value(high[p.len..]), Value(high[..p.len]));
  }

  // Writing over a field that is zero adds the value at the field's place.
  lemma SetAdds(word: Word, value: nat, p: Place)
    requires Within(p, |word|) && GetValue(word, p) == 0
    ensures Value(SetValue(word, value, p)) == Value(word) + Pow2(p.shift) * (value % Pow2(p.len))
  {
    hide GetValue, SetValue, Value, Pow2, Bits;
    var w := SetValue(word, value, p);
    GetAfterSet(word, value, p);
    GetIsSlice(word, p);
    GetIsSlice(w, p);
    forall i: nat | i < |word|
      ensures !(p.shift <= i < p.shift + p.len) ==> w[i] == word[i]
    {
      SetBit(word, value, p, i);
    }
    assert w[..p.shift] == word[..p.shift] && w[p.shift + p.len..] == word[p.shift + p.len..];
    ThreeParts(word, p);
    ThreeParts(w, p);
    Distributes(Pow2(p.shift), value % Pow2(p.len), Pow2(p.len) * Value(word[p.shift + p.len..]));
  }

  lemma ThreeParts(w: Word, p: Place)
    requires Within(p, |w|)
    ensures Value(w) == Value(w[..p.shift])
      + Pow2(p.shift) * (Value(w[p.shift..p.shift + p.len]) + Pow2(p.len) * Value(w[p.shift + p.len..]))
  {
    hide Value, Pow2;
    ValueSplit(w, p.shift);
    ValueSplit(w[p.shift..], p.len);
    assert w[p.shift..][..p.len] == w[p.shift..p.shift + p.len];
    assert w[p.shift..][p.len..] == w[p.shift + p.len..];
  }

  lemma Distributes(a: nat, b: nat, c: nat)
    ensures a * (b + c) == a * b + a * c
    ensures a * (0 + c) == a * c
  {
  }
}
