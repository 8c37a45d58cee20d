/** Counters are kept as decimal text. isint decides "canonical int64" by length and byte order alone;
    here it is shown to decide exactly that. */
module Decimal {
  import opened Basics

  const ZERO: byte := 48
  const NINE: byte := 57

  predicate IsDigit(b: byte) {
    ZERO <= b <= NINE
  }

  predicate AllDigits(v: Bytes) {
    forall i :: 0 <= i < |v| ==> IsDigit(v[i])
  }

  function DigitValue(b: byte): (d: nat)
    requires IsDigit(b)
    ensures d < 10
  {
    b as int - 48
  }

  function Digit(d: nat): (b: byte)
    requires d < 10
    ensures IsDigit(b) && DigitValue(b) == d
  {
    (d + 48) as byte
  }

  function Value(v: Bytes): nat
    requires AllDigits(v)
    decreases |v|
  {
    if v == [] then 0 else 10 * Value(v[..|v| - 1]) + DigitValue(v[|v| - 1])
  }

  function Print(n: nat): Bytes {
    if n < 10 then [Digit(n)] else Print(n / 10) + [Digit(n % 10)]
  }

  predicate Canonical(v: Bytes) {
    AllDigits(v) && v != [] && (|v| > 1 ==> v[0] != ZERO)
  }

  /** Printing yields the canonical text of the number. */
  lemma {:induction false} PrintCanonical(n: nat)
    ensures Canonical(Print(n)) && Value(Print(n)) == n
    ensures n > 0 ==> Print(n)[0] != ZERO
  {
    if n >= 10 {
      PrintCanonical(n / 10);
      assert Print(n)[..|Print(n)| - 1] == Print(n / 10);
    } else {
      assert Print(n)[..0] == [];
    }
  }

  /** Canonical text is the print of its value, so canonical texts and numbers correspond one to one. */
  lemma {:induction false} CanonicalPrints(v: Bytes)
    requires Canonical(v)
    ensures Print(Value(v)) == v
    ensures |v| > 1 ==> Value(v) >= 10
    decreases |v|
  {
    var front, last := v[..|v| - 1], v[|v| - 1];
    if front == [] {
      assert Value(front) == 0;
      assert v == [last];
    } else {
      CanonicalPrints(front);
      if |front| == 1 {
        assert Value(front) == 10 * Value(front[..0]) + DigitValue(front[0]);
        assert front[0] == v[0] != ZERO;
      }
      assert Value(v) / 10 == Value(front) && Value(v) % 10 == DigitValue(last);
      assert v == front + [last];
    }
  }

  function Pow10(k: nat): (p: nat)
    ensures p >= 1
  {
    if k == 0 then 1 else 10 * Pow10(k - 1)
  }

  lemma {:induction false} LeadingDigit(v: Bytes)
    requires AllDigits(v) && v != []
    ensures Value(v) == DigitValue(v[0]) * Pow10(|v| - 1) + Value(v[1..])
    decreases |v|
  {
    if |v| == 1 {
      assert v[..0] == [] && v[1..] == [];
    } else {
      var front := v[..|v| - 1];
      LeadingDigit(front);
      assert v[1..][..|v| - 2] == front[1..];
      assert v[1..][|v| - 2] == v[|v| - 1];
    }
  }

  lemma {:induction false} ValueBound(v: Bytes)
    requires AllDigits(v)
    ensures Value(v) < Pow10(|v|)
    decreases |v|
  {
    if v != [] {
      ValueBound(v[..|v| - 1]);
    }
  }

  lemma AtLeast(d: nat, p: nat)
    requires d >= 1
    ensures d * p >= p
  {
    assert d * p == (d - 1) * p + p;
  }

  lemma ShorterIsSmaller(v: Bytes, w: Bytes)
    requires Canonical(v) && Canonical(w) && |v| < |w|
    ensures Value(v) < Value(w)
  {
    ValueBound(v);
    LeadingDigit(w);
    Pow10Grows(|v|, |w| - 1);
    AtLeast(DigitValue(w[0]), Pow10(|w| - 1));
  }

  lemma {:induction false} Pow10Grows(j: nat, k: nat)
    requires j <= k
    ensures Pow10(j) <= Pow10(k)
  {
    if j < k {
      Pow10Grows(j, k - 1);
    }
  }

  // Lua's v > w on strings of digits.
  predicate ByteGreater(v: Bytes, w: Bytes) {
    v != [] && (w == [] || v[0] > w[0] || (v[0] == w[0] && ByteGreater(v[1..], w[1..])))
  }

  /** On digit strings of one length, byte order is numeric order. */
  lemma {:induction false} ByteOrderIsNumeric(v: Bytes, w: Bytes)
    requires AllDigits(v) && AllDigits(w) && |v| == |w|
    ensures ByteGreater(v, w) <==> Value(v) > Value(w)
    decreases |v|
  {
    if v != [] {
      LeadingDigit(v);
      LeadingDigit(w);
      ValueBound(v[1..]);
      ValueBound(w[1..]);
      ByteOrderIsNumeric(v[1..], w[1..]);
      DigitDominates(DigitValue(v[0]), DigitValue(w[0]), Pow10(|v| - 1), Value(v[1..]), Value(w[1..]));
    }
  }

  lemma DigitDominates(a: nat, b: nat, p: nat, x: nat, y: nat)
    requires x < p && y < p
    ensures a > b ==> a * p + x > b * p + y
    ensures a < b ==> a * p + x < b * p + y
  {
    if a > b {
      assert a * p >= (b + 1) * p == b * p + p;
    } else if a < b {
      assert b * p >= (a + 1) * p == a * p + p;
    }
  }

  /** isint(v, limit); a missing hash field reads as None. */
  predicate IsInt(v: Option<Bytes>, limit: Bytes) {
    if v.None? || v.value == [] || !AllDigits(v.value) then false
    else if |v.value| > 1 && v.value[0] == ZERO then false
    else if |v.value| > |limit| then false
    else if |v.value| == |limit| && ByteGreater(v.value, limit) then false
    else true
  }

  /** isint accepts exactly the canonical decimals of the numbers 0 to limit. */
  lemma IsIntExact(v: Bytes, limit: Bytes)
    requires Canonical(limit)
    ensures IsInt(Some(v), limit) <==> Canonical(v) && Value(v) <= Value(limit)
    ensures IsInt(Some(v), limit) <==> exists n: nat :: n <= Value(limit) && v == Print(n)
  {
    if Canonical(v) {
      if |v| < |limit| {
        ShorterIsSmaller(v, limit);
      } else if |v| > |limit| {
        ShorterIsSmaller(limit, v);
      } else {
        ByteOrderIsNumeric(v, limit);
      }
      CanonicalPrints(v);
    }
    forall n: nat | n <= Value(limit) && v == Print(n) ensures Canonical(v) && Value(v) == n {
      PrintCanonical(n);
    }
  }

  // "9223372036854775807" and its predecessor.
  const I64_MAX: Bytes := [57, 50, 50, 51, 51, 55, 50, 48, 51, 54, 56, 53, 52, 55, 55, 53, 56, 48, 55]
  const I64_MAX_MINUS_1: Bytes := [57, 50, 50, 51, 51, 55, 50, 48, 51, 54, 56, 53, 52, 55, 55, 53, 56, 48, 54]
  const MAX_INT64: nat := 9223372036854775807

  lemma NextDigits(v: Bytes, k: nat, before: nat, after: nat)
    requires AllDigits(v) && k + 3 <= |v| && Value(v[..k]) == before
    requires after == 1000 * before + 100 * DigitValue(v[k]) + 10 * DigitValue(v[k + 1]) + DigitValue(v[k + 2])
    ensures Value(v[..k + 3]) == after
  {
    NextDigit(v, k);
    NextDigit(v, k + 1);
    NextDigit(v, k + 2);
  }

  lemma NextDigit(v: Bytes, k: nat)
    requires AllDigits(v) && k < |v|
    ensures Value(v[..k + 1]) == 10 * Value(v[..k]) + DigitValue(v[k])
  {
    assert v[..k + 1][..k] == v[..k];
  }

  lemma LimitHead(w: Bytes)
    requires |w| == 18 && AllDigits(w)
    requires w[0] == 57 && w[1] == 50 && w[2] == 50 && w[3] == 51 && w[4] == 51 && w[5] == 55
    requires w[6] == 50 && w[7] == 48 && w[8] == 51 && w[9] == 54 && w[10] == 56 && w[11] == 53
    requires w[12] == 52 && w[13] == 55 && w[14] == 55 && w[15] == 53 && w[16] == 56 && w[17] == 48
    ensures Value(w) == 922337203685477580
  {
    NextDigits(w, 0, 0, 922);
    NextDigits(w, 3, 922, 922337);
    NextDigits(w, 6, 922337, 922337203);
    NextDigits(w, 9, 922337203, 922337203685);
    NextDigits(w, 12, 922337203685, 922337203685477);
    NextDigits(w, 15, 922337203685477, 922337203685477580);
    assert w[..18] == w;
  }

  lemma LimitValues()
    ensures Canonical(I64_MAX) && Value(I64_MAX) == MAX_INT64
    ensures Canonical(I64_MAX_MINUS_1) && Value(I64_MAX_MINUS_1) == MAX_INT64 - 1
  {
    LimitHead(I64_MAX[..18]);
    assert I64_MAX_MINUS_1[..18] == I64_MAX[..18];
    assert I64_MAX[..19] == I64_MAX && I64_MAX_MINUS_1[..19] == I64_MAX_MINUS_1;
    NextDigit(I64_MAX, 18);
    NextDigit(I64_MAX_MINUS_1, 18);
  }

  predicate IsInc(v: Option<Bytes>) {
    IsInt(v, I64_MAX_MINUS_1)
  }

  predicate IsCount(v: Option<Bytes>) {
    IsInt(v, I64_MAX)
  }

  /** A counter that passes isinc can be incremented: the result is again a canonical int64. */
  lemma IncrementIsCount(v: Bytes)
    requires IsInc(Some(v))
    ensures Canonical(v) && Value(v) < MAX_INT64
    ensures IsCount(Some(Print(Value(v) + 1))) && Value(Print(Value(v) + 1)) == Value(v) + 1
  {
    LimitValues();
    IsIntExact(v, I64_MAX_MINUS_1);
    PrintCanonical(Value(v) + 1);
    IsIntExact(Print(Value(v) + 1), I64_MAX);
  }
}
