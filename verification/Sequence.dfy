/** The id counter (pkg/sequence/sequence.go): a 32-bit counter printed in decimal. */
module Sequence {

  /** One more than the largest uint32. */
  const UINT32_RANGE: nat := 0x1_0000_0000

  /** The characters of a decimal numeral, least value first. */
  function Digit(d: nat): (c: char)
    requires d < 10
  {
    "0123456789"[d]
  }

  /** strconv.Itoa on a non-negative number. */
  function Decimal(n: nat): (s: string)
  {
    if n < 10 then [Digit(n)] else Decimal(n / 10) + [Digit(n % 10)]
  }

  /** The number a string of digits stands for; other characters count as zero. */
  function Numeral(s: string): (n: nat)
  {
    if s == "" then 0 else
      var c := s[|s| - 1];
      10 * Numeral(s[..|s| - 1]) + if '0' <= c <= '9' then (c - '0') as nat else 0
  }

  /** A printed number has digits only, and no zero in front unless it is "0". */
  lemma {:induction false} DecimalIsCanonical(n: nat)
    ensures Decimal(n) != "" && forall i :: 0 <= i < |Decimal(n)| ==> '0' <= Decimal(n)[i] <= '9'
    ensures |Decimal(n)| > 1 ==> Decimal(n)[0] != '0'
    ensures Decimal(n)[0] == '0' <==> n == 0
  {
    if n >= 10 {
      DecimalIsCanonical(n / 10);
    }
  }

  /** Reading a printed number back gives the number. */
  lemma {:induction false} NumeralOfDecimal(n: nat)
    ensures Numeral(Decimal(n)) == n
  {
    if n < 10 {
      assert Decimal(n)[..0] == "";
      assert Numeral("") == 0;
    } else {
      var s := Decimal(n);
      assert s[..|s| - 1] == Decimal(n / 10);
      NumeralOfDecimal(n / 10);
    }
  }

  /** Printed ids are equal exactly when the numbers are. */
  lemma DecimalInjective(m: nat, n: nat)
    ensures Decimal(m) == Decimal(n) <==> m == n
  {
    NumeralOfDecimal(m);
    NumeralOfDecimal(n);
  }

  /** The same with a fixed prefix in front, as the server builds its record ids. */
  lemma PrefixedInjective(prefix: string, m: nat, n: nat)
    ensures prefix + Decimal(m) == prefix + Decimal(n) <==> m == n
  {
    DecimalInjective(m, n);
    assert (prefix + Decimal(m))[|prefix|..] == Decimal(m);
    assert (prefix + Decimal(n))[|prefix|..] == Decimal(n);
  }

  /** Counter value after one atomic increment. */
  function Successor(value: nat): (r: nat)
  {
    (value + 1) % UINT32_RANGE
  }

  /** Counter value after `k` increments of a zero counter. */
  function After(k: nat): (r: nat)
    ensures r < UINT32_RANGE
  {
    if k == 0 then 0 else Successor(After(k - 1))
  }

  lemma {:induction false} AfterIsRemainder(k: nat)
    ensures After(k) == k % UINT32_RANGE == k % 4_294_967_296
  {
    if k > 0 {
      AfterIsRemainder(k - 1);
      SuccessorOfRemainder(k - 1);
    }
  }

  lemma SuccessorOfRemainder(k: nat)
    ensures Successor(k % UINT32_RANGE) == (k + 1) % UINT32_RANGE
  {
    var q, r := k / UINT32_RANGE, k % UINT32_RANGE;
    assert k + 1 == q * UINT32_RANGE + (r + 1);
  }

  /** The k-th and j-th id strings of one counter coincide exactly when k and j
      differ by a multiple of 2^32. */
  lemma IssuedIdsCoincide(k: nat, j: nat)
    ensures Decimal(After(k)) == Decimal(After(j)) <==> k % 4_294_967_296 == j % 4_294_967_296
  {
    var a, b := After(k), After(j);
    assert a == k % UINT32_RANGE by { AfterIsRemainder(k); }
    assert b == j % UINT32_RANGE by { AfterIsRemainder(j); }
    DecimalInjective(a, b);
  }

  /** Fewer than 2^32 calls never repeat an id, and the counter then is the call count. */
  lemma NoRepeatBelowRange(k: nat)
    requires k < UINT32_RANGE
    ensures After(k) == k
  {
    AfterIsRemainder(k);
  }

  /** The counter object. `calls` counts the increments made so far. */
  class Seq {
    var value: nat
    ghost var calls: nat

    ghost predicate Valid()
      reads this
    {
      value == After(calls)
    }

    constructor ()
      ensures Valid() && calls == 0
    {
      value, calls := 0, 0;
    }

    method NextUint32() returns (n: nat)
      requires Valid()
      modifies this
      ensures Valid() && calls == old(calls) + 1
      ensures n == value == After(calls)
    {
      value := (value + 1) % UINT32_RANGE;
      calls := calls + 1;
      n := value;
    }

    method NextString() returns (s: string)
      requires Valid()
      modifies this
      ensures Valid() && calls == old(calls) + 1
      ensures s == Decimal(After(calls))
    {
      var n := NextUint32();
      s := Decimal(n);
    }
  }
}
