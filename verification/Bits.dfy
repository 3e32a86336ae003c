// Fixed-width binary numbers, most significant bit first, and the equivalence
// of prefix matching by mask and by interval (section 3.1 of RFC 4632).
module Bits {

  type Word = seq<bool>

  function Pow2(n: nat): (p: nat)
    ensures p > 0
  {
    if n == 0 then 1 else 2 * Pow2(n - 1)
  }

  function Value(b: Word): (v: nat) {
    if b == [] then 0 else (if b[0] then Pow2(|b| - 1) else 0) + Value(b[1..])
  }

  function Bit(n: nat, k: nat): bool { n / Pow2(k) % 2 == 1 }

  function ToBits(n: nat, width: nat): (b: Word)
    ensures |b| == width
  {
    seq(width, i requires 0 <= i < width => Bit(n, width - 1 - i))
  }

  function Xor(a: Word, b: Word): Word
    requires |a| == |b|
  {
    seq(|a|, i requires 0 <= i < |a| => a[i] != b[i])
  }

  function And(a: Word, b: Word): Word
    requires |a| == |b|
  {
    seq(|a|, i requires 0 <= i < |a| => a[i] && b[i])
  }

  // The top len bits set.
  function Mask(len: nat, width: nat): Word { seq(width, i => i < len) }

  predicate IsZero(a: Word) { forall i :: 0 <= i < |a| ==> !a[i] }

  // netip.Prefix.Contains for addresses of one family: the difference of the
  // two addresses, masked, is zero.
  predicate MaskMatch(a: Word, base: Word, len: nat)
    requires |a| == |base| && len <= |a|
  {
    IsZero(And(Xor(a, base), Mask(len, |a|)))
  }

  lemma {:induction false} ValueBound(b: Word)
    ensures Value(b) < Pow2(|b|)
    decreases |b|
  {
    if b != [] { ValueBound(b[1..]); }
  }

  lemma MaskMatchMeansSamePrefix(a: Word, base: Word, len: nat)
    requires |a| == |base| && len <= |a|
    ensures MaskMatch(a, base, len) <==> a[..len] == base[..len]
  {
    var d := And(Xor(a, base), Mask(len, |a|));
    assert forall i :: 0 <= i < |a| ==> d[i] == (a[i] != base[i] && i < len);
    if MaskMatch(a, base, len) {
      forall i | 0 <= i < len ensures a[i] == base[i] { assert !d[i]; }
    }
    if a[..len] == base[..len] {
      forall i | 0 <= i < |a| ensures !d[i] {
        if i < len { assert a[..len][i] == base[..len][i]; }
      }
    }
  }

  // The start of the block of that size that holds n.
  function BlockStart(n: nat, size: nat): nat
    requires size > 0
  {
    n - n % size
  }

  lemma MulMono(a: nat, b: nat, c: nat)
    requires a <= b
    ensures a * c <= b * c
  {
  }

  lemma DivUnique(n: nat, q: nat, r: nat, size: nat)
    requires size > 0 && r < size && n == q * size + r
    ensures n % size == r
  {
    var p := n / size;
    assert n == p * size + n % size;
    if p < q {
      MulMono(p + 1, q, size);
    } else if q < p {
      MulMono(q + 1, p, size);
    }
  }

  lemma {:induction false} Pow2Sum(m: nat, n: nat)
    ensures Pow2(m + n) == Pow2(m) * Pow2(n)
    decreases m
  {
    if m > 0 { Pow2Sum(m - 1, n); }
  }

  // Words of one width with the same value are equal.
  lemma {:induction false} ValueInjective(a: Word, b: Word)
    requires |a| == |b| && Value(a) == Value(b)
    ensures a == b
    decreases |a|
  {
    if a != [] {
      ValueBound(a[1..]);
      ValueBound(b[1..]);
      ValueInjective(a[1..], b[1..]);
      assert a == [a[0]] + a[1..] && b == [b[0]] + b[1..];
    }
  }

  lemma ShiftedSum(top: nat, half: nat, q: nat, size: nat)
    ensures (top * half + q) * size == top * (half * size) + q * size
  {
  }

  // A word is its top len bits, shifted, plus the rest.
  lemma {:induction false} ValueSplits(a: Word, len: nat)
    requires len <= |a|
    ensures Value(a) == Value(a[..len]) * Pow2(|a| - len) + Value(a[len..])
    decreases len
  {
    if len == 0 {
      assert a[..0] == [] && a[0..] == a;
    } else {
      ValueSplits(a[1..], len - 1);
      assert a[1..][..len - 1] == a[..len][1..] && a[1..][len - 1..] == a[len..];
      Pow2Sum(len - 1, |a| - len);
      ShiftedSum(if a[0] then 1 else 0, Pow2(len - 1), Value(a[..len][1..]), Pow2(|a| - len));
    }
  }

  lemma HalfThenDivide(n: nat, m: nat)
    requires m > 0
    ensures n / 2 / m == n / (2 * m)
  {
    var h, q := n / 2, n / 2 / m;
    assert h == q * m + h % m && n == 2 * h + n % 2;
    assert 2 * (q * m) == q * (2 * m);
    var r := 2 * (h % m) + n % 2;
    assert r < 2 * m && n == q * (2 * m) + r;
    DivUnique(n, q, r, 2 * m);
    assert n / (2 * m) * (2 * m) == q * (2 * m);
    if n / (2 * m) < q { MulMono(n / (2 * m) + 1, q, 2 * m); }
      else if q < n / (2 * m) { MulMono(q + 1, n / (2 * m), 2 * m); }
  }

  lemma BitOfHalf(n: nat, k: nat)
    ensures Bit(n, k + 1) == Bit(n / 2, k)
  {
    assert Pow2(k + 1) == 2 * Pow2(k);
    HalfThenDivide(n, Pow2(k));
  }

  // The binary digits of a number that fits denote that number.
  lemma {:induction false} ValueOfBits(n: nat, width: nat)
    requires n < Pow2(width)
    ensures Value(ToBits(n, width)) == n
    decreases width
  {
    if width > 0 {
      var b := ToBits(n, width);
      forall i | 0 <= i < width - 1 ensures b[i] == ToBits(n / 2, width - 1)[i] {
        BitOfHalf(n, width - 2 - i);
      }
      assert b[..width - 1] == ToBits(n / 2, width - 1);
      ValueOfBits(n / 2, width - 1);
      ValueSplits(b, width - 1);
      assert b[width - 1..] == [Bit(n, 0)] && Value([Bit(n, 0)]) == n % 2;
    }
  }

  // Two numbers lie in the same block exactly when their block numbers agree.
  lemma SameBlock(x: nat, p: nat, r: nat, y: nat, q: nat, t: nat, size: nat)
    requires size > 0 && r < size && t < size && x == p * size + r && y == q * size + t
    ensures BlockStart(y, size) <= x < BlockStart(y, size) + size <==> p == q
  {
    DivUnique(y, q, t, size);
    if p < q {
      MulMono(p + 1, q, size);
    } else if q < p {
      MulMono(q + 1, p, size);
    }
  }

  // Prefix membership by masking is membership in an interval, for every width,
  // base and length; the base need not have its low bits clear.
  lemma MaskMatchMeansInterval(a: Word, base: Word, len: nat)
    requires |a| == |base| && len <= |a|
    ensures var size := Pow2(|a| - len); var lo := BlockStart(Value(base), size);
      MaskMatch(a, base, len) <==> lo <= Value(a) < lo + size
  {
    MaskMatchMeansSamePrefix(a, base, len);
    ValueSplits(a, len);
    ValueSplits(base, len);
    ValueBound(a[len..]);
    ValueBound(base[len..]);
    if Value(a[..len]) == Value(base[..len]) { ValueInjective(a[..len], base[..len]); }
    SameBlock(Value(a), Value(a[..len]), Value(a[len..]), Value(base), Value(base[..len]), Value(base[len..]),
      Pow2(|a| - len));
  }
}
