/** Fixed-width words as naturals: masks, shifts and the bits they select. */
module Bits {

  function Pow2(n: nat): (r: nat)
    ensures r > 0
  {
    if n == 0 then 1 else 2 * Pow2(n - 1)
  }

  /** `a & b` on `w`-bit words. */
  function And(a: nat, b: nat, w: nat): nat {
    if w == 0 then 0 else 2 * And(a / 2, b / 2, w - 1) + (a % 2) * (b % 2)
  }

  /** `a << s` on `w`-bit words: what is shifted out is lost. */
  function ShiftLeft(a: nat, s: nat, w: nat): nat { (a * Pow2(s)) % Pow2(w) }

  /** `a >> s` */
  function Drop(a: nat, s: nat): nat {
    if s == 0 then a else Drop(a / 2, s - 1)
  }

  /** Bit `i`, counted from the least significant. */
  function Bit(a: nat, i: nat): nat { Drop(a, i) % 2 }

  function Min(a: nat, b: nat): nat { if a <= b then a else b }

  /** `prefix_mask_v4` and `prefix_mask_v6`, for words of `w` bits. */
  function PrefixMask(w: nat, prefix: nat): nat {
    if prefix == 0 then 0
    else if prefix >= w then Pow2(w) - 1
    else ShiftLeft(Pow2(w) - 1, w - prefix, w)
  }

  // ---- Arithmetic ----

  lemma MulStrict(x: nat, y: nat, p: nat)
    ensures x < y && p > 0 ==> x * p < y * p
    ensures x < y ==> (x + 1) * p <= y * p
  {
    if x < y {
      Distribute(x, y - x, p);
      Distribute(1, y - x - 1, p);
      Distribute(x, 1, p);
    }
  }

  lemma Distribute(a: nat, b: nat, p: nat)
    ensures (a + b) * p == a * p + b * p
  {
  }

  lemma Cancel(x: nat, y: nat, p: nat)
    requires p > 0 && x * p == y * p
    ensures x == y
  {
    MulStrict(x, y, p);
    MulStrict(y, x, p);
  }

  lemma ModUnique(q: nat, d: nat, r: nat)
    requires r < d
    ensures (q * d + r) % d == r && (q * d + r) / d == q
  {
    var a := q * d + r;
    assert a == (a / d) * d + a % d;
    MulStrict(q, a / d, d);
    MulStrict(a / d, q, d);
  }

  lemma ShiftedOnes(W: nat, S: nat)
    requires 0 < S <= W
    ensures (W - 1) * S == (S - 1) * W + (W - S)
  {
  }

  lemma {:induction false} Pow2Monotone(m: nat, n: nat)
    requires m <= n
    ensures Pow2(m) <= Pow2(n)
  {
    if m < n { Pow2Monotone(m, n - 1); }
  }

  // ---- The mask is the top `prefix` bits ----

  /** The mask has its `prefix` most significant bits set and no others. */
  lemma MaskValue(w: nat, prefix: nat)
    ensures Pow2(w - Min(prefix, w)) <= Pow2(w)
    ensures PrefixMask(w, prefix) == Pow2(w) - Pow2(w - Min(prefix, w))
  {
    Pow2Monotone(w - Min(prefix, w), w);
    if 0 < prefix < w {
      var s := w - prefix;
      var W, S := Pow2(w), Pow2(s);
      ShiftedOnes(W, S);
      ModUnique(S - 1, W, W - S);
    }
  }

  lemma {:induction false} AndOnes(a: nat, w: nat)
    requires a < Pow2(w)
    ensures And(a, Pow2(w) - 1, w) == a
  {
    if w > 0 {
      assert (Pow2(w) - 1) / 2 == Pow2(w - 1) - 1 && (Pow2(w) - 1) % 2 == 1;
      AndOnes(a / 2, w - 1);
    }
  }

  /** Masking with the top bits keeps what shifting right by the rest keeps. */
  lemma {:induction false} AndMask(a: nat, s: nat, w: nat)
    requires a < Pow2(w) && s <= w && Pow2(s) <= Pow2(w)
    ensures And(a, Pow2(w) - Pow2(s), w) == Drop(a, s) * Pow2(s)
  {
    if s == 0 {
      AndOnes(a, w);
    } else {
      var m := Pow2(w) - Pow2(s);
      assert m == 2 * (Pow2(w - 1) - Pow2(s - 1));
      AndMask(a / 2, s - 1, w - 1);
      Reassociate(Drop(a, s), Pow2(s - 1));
    }
  }

  lemma Reassociate(x: nat, p: nat)
    ensures 2 * (x * p) == x * (2 * p)
  {
  }

  /** Two words agree under the mask exactly when they agree after the shift. */
  lemma MaskedEqual(a: nat, b: nat, w: nat, prefix: nat)
    requires a < Pow2(w) && b < Pow2(w)
    ensures And(a, PrefixMask(w, prefix), w) == And(b, PrefixMask(w, prefix), w)
       <==> Drop(a, w - Min(prefix, w)) == Drop(b, w - Min(prefix, w))
  {
    var s := w - Min(prefix, w);
    MaskValue(w, prefix);
    AndMask(a, s, w);
    AndMask(b, s, w);
    if Drop(a, s) * Pow2(s) == Drop(b, s) * Pow2(s) { Cancel(Drop(a, s), Drop(b, s), Pow2(s)); }
  }

  /** Masking twice is masking once. */
  lemma MaskIdempotent(a: nat, w: nat, prefix: nat)
    requires a < Pow2(w)
    ensures var m := And(a, PrefixMask(w, prefix), w);
            m < Pow2(w) && And(m, PrefixMask(w, prefix), w) == m
  {
    var s := w - Min(prefix, w);
    var m := And(a, PrefixMask(w, prefix), w);
    MaskValue(w, prefix);
    AndMask(a, s, w);
    DropTimes(a, s);
    DropOfShifted(Drop(a, s), s);
    AndMask(m, s, w);
  }

  lemma {:induction false} DropTimes(a: nat, s: nat)
    ensures Drop(a, s) * Pow2(s) <= a
  {
    if s > 0 {
      DropTimes(a / 2, s - 1);
      Reassociate(Drop(a, s), Pow2(s - 1));
    }
  }

  lemma {:induction false} DropOfShifted(x: nat, s: nat)
    ensures Drop(x * Pow2(s), s) == x
  {
    if s > 0 {
      Reassociate(x, Pow2(s - 1));
      DropOfShifted(x, s - 1);
    }
  }

  // ---- The bits ----

  lemma {:induction false} DropStep(a: nat, s: nat)
    ensures Drop(a, s + 1) == Drop(a, s) / 2
  {
    if s > 0 { DropStep(a / 2, s - 1); }
  }

  lemma {:induction false} DropAll(a: nat, w: nat)
    requires a < Pow2(w)
    ensures Drop(a, w) == 0
  {
    if w > 0 { DropAll(a / 2, w - 1); }
  }

  /** Equal after the shift means equal in every bit that is left. */
  lemma {:induction false} DropBits(a: nat, b: nat, s: nat, w: nat)
    requires a < Pow2(w) && b < Pow2(w) && s <= w
    ensures Drop(a, s) == Drop(b, s) <==> forall i | s <= i < w :: Bit(a, i) == Bit(b, i)
    decreases w - s
  {
    if s == w {
      DropAll(a, w);
      DropAll(b, w);
    } else {
      DropStep(a, s);
      DropStep(b, s);
      DropBits(a, b, s + 1, w);
      assert Drop(a, s) == 2 * Drop(a, s + 1) + Bit(a, s);
      assert Drop(b, s) == 2 * Drop(b, s + 1) + Bit(b, s);
    }
  }

  /** A one-bit prefix keeps nothing or the top bit. */
  lemma TopBit(a: nat, w: nat)
    requires w > 0 && a < Pow2(w)
    ensures And(a, PrefixMask(w, 1), w) == 0 || And(a, PrefixMask(w, 1), w) == Pow2(w - 1)
  {
    var d := Drop(a, w - 1);
    MaskValue(w, 1);
    AndMask(a, w - 1, w);
    DropAll(a, w);
    DropStep(a, w - 1);
    assert d == 0 || d == 1;
  }

  /** Halving first and dividing then is dividing by twice as much. */
  lemma HalfThenDivide(a: nat, p: nat)
    requires p > 0
    ensures (a / 2) / p == a / (2 * p)
  {
    var q := (a / 2) / p;
    var m := (a / 2) % p;
    QuotientForm(a / 2, p);
    Reassociate(q, p);
    ModUnique(q, 2 * p, 2 * m + a % 2);
  }

  lemma QuotientForm(a: nat, p: nat)
    requires p > 0
    ensures a == (a / p) * p + a % p
  {
  }

  /** Shifting right is dividing by a power of two. */
  lemma {:induction false} DropIsDivision(a: nat, s: nat)
    ensures Drop(a, s) == a / Pow2(s)
  {
    if s > 0 {
      DropIsDivision(a / 2, s - 1);
      HalfThenDivide(a, Pow2(s - 1));
    }
  }
}
