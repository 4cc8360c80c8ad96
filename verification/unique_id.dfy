/**
 * Model of lodash's `uniqueId(prefix)`: one counter shared by every caller,
 * incremented before use; the id is the prefix followed by the new counter
 * value written in decimal.
 */
module UniqueId {

  function DigitChar(d: nat): (c: char)
    requires d < 10
    ensures '0' <= c <= '9'
  {
    (48 + d) as char
  }

  /** The decimal numeral of `n`, without leading zeros. */
  function Decimal(n: nat): (s: string)
    ensures 1 <= |s|
    ensures (n < 10) <==> (|s| == 1)
    decreases n
  {
    if n < 10 then [DigitChar(n)] else Decimal(n / 10) + [DigitChar(n % 10)]
  }

  /** Distinct numbers have distinct numerals. */
  lemma {:induction false} DecimalDistinct(m: nat, n: nat)
    requires m != n
    ensures Decimal(m) != Decimal(n)
    decreases m
  {
    if m < 10 && n < 10 {
      assert Decimal(m)[0] != Decimal(n)[0];
    } else if m >= 10 && n >= 10 {
      var sm, sn := Decimal(m), Decimal(n);
      assert sm[..|sm| - 1] == Decimal(m / 10);
      assert sn[..|sn| - 1] == Decimal(n / 10);
      if m % 10 != n % 10 {
        assert sm[|sm| - 1] != sn[|sn| - 1];
      } else {
        DecimalDistinct(m / 10, n / 10);
      }
    }
  }

  /** The id `uniqueId(prefix)` returns when the counter has reached `n`. */
  function Format(prefix: string, n: nat): string
  {
    prefix + Decimal(n)
  }

  /** Under one prefix, distinct counter values give distinct ids. */
  lemma FormatDistinct(prefix: string, m: nat, n: nat)
    requires m != n
    ensures Format(prefix, m) != Format(prefix, n)
  {
    DecimalDistinct(m, n);
    assert Format(prefix, m)[|prefix|..] == Decimal(m);
    assert Format(prefix, n)[|prefix|..] == Decimal(n);
  }

  /** The process-wide id counter. */
  class IdCounter {
    var count: nat

    constructor ()
      ensures count == 0
    {
      count := 0;
    }

    /** `++idCounter` */
    method Next() returns (n: nat)
      modifies this
      ensures count == old(count) + 1 && n == count
    {
      count := count + 1;
      n := count;
    }

    /** `uniqueId(prefix)`: a fresh id, distinct from every id issued before under the same prefix. */
    method UniqueId(prefix: string) returns (id: string)
      modifies this
      ensures count == old(count) + 1
      ensures id == Format(prefix, count)
      ensures forall k :: 1 <= k <= old(count) ==> id != Format(prefix, k)
    {
      var n := Next();
      id := Format(prefix, n);
      forall k | 1 <= k <= old(count)
        ensures id != Format(prefix, k)
      {
        FormatDistinct(prefix, n, k);
      }
    }
  }
}
