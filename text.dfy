/** String helpers that mirror the Python built-ins the program relies on. */
module Text {
  import opened Wrappers

  /** `sep.join(parts)`. */
  function Join(sep: string, parts: seq<string>): string
    decreases |parts|
  {
    if |parts| == 0 then ""
    else if |parts| == 1 then parts[0]
    else parts[0] + sep + Join(sep, parts[1..])
  }

  /** `f"{value}"` for a JSON string that may be missing: Python prints `None`. */
  function Format(value: Option<string>): string
  {
    match value
    case Some(s) => s
    case None => "None"
  }

  /** `s[:k]` on a sequence: at most the first `k` elements. */
  function Take<T>(s: seq<T>, k: nat): (r: seq<T>)
    ensures |r| == if |s| <= k then |s| else k
    ensures r <= s
  {
    if |s| <= k then s else s[..k]
  }

  /** Appending is associative; loops that append piece by piece use it to regroup. */
  lemma AppendAssociative<T>(a: seq<T>, b: seq<T>, c: seq<T>)
    ensures a + b + c == a + (b + c)
  {
  }

  function Digit(d: nat): char
    requires d < 10
  {
    "0123456789"[d]
  }

  function DigitValue(c: char): nat
  {
    if '0' <= c <= '9' then (c as int - '0' as int) as nat else 0
  }

  /** `str(n)` for a non-negative integer: its decimal digits, most significant first. */
  function Decimal(n: nat): (r: string)
    ensures |r| >= 1
    ensures forall i :: 0 <= i < |r| ==> '0' <= r[i] <= '9'
  {
    if n < 10 then [Digit(n)] else Decimal(n / 10) + [Digit(n % 10)]
  }

  /** Reads decimal digits back into a number (the inverse of `Decimal`). */
  function ParseDecimal(s: string): nat
  {
    if |s| == 0 then 0 else ParseDecimal(s[..|s| - 1]) * 10 + DigitValue(s[|s| - 1])
  }

  lemma DigitRoundTrip(d: nat)
    requires d < 10
    ensures DigitValue(Digit(d)) == d
  {
    assert "0123456789"[d] as int == '0' as int + d;
  }

  /** Printing a number in decimal loses nothing: parsing the digits gives it back. */
  lemma {:induction false} DecimalRoundTrip(n: nat)
    ensures ParseDecimal(Decimal(n)) == n
  {
    if n < 10 {
      DigitRoundTrip(n);
      assert Decimal(n)[..0] == [];
    } else {
      var s := Decimal(n);
      assert s[..|s| - 1] == Decimal(n / 10);
      DecimalRoundTrip(n / 10);
      DigitRoundTrip(n % 10);
    }
  }

  /** Distinct numbers print as distinct digit strings. */
  lemma DecimalInjective(m: nat, n: nat)
    requires m != n
    ensures Decimal(m) != Decimal(n)
  {
    DecimalRoundTrip(m);
    DecimalRoundTrip(n);
  }

  /** Python's `a < b` on strings: lexicographic by code point, a proper prefix being smaller. */
  predicate Less(a: string, b: string)
    decreases |a|
  {
    if |b| == 0 then false
    else if |a| == 0 then true
    else if a[0] != b[0] then a[0] < b[0]
    else Less(a[1..], b[1..])
  }

  lemma {:induction false} LessAsymmetric(a: string, b: string)
    requires Less(a, b)
    ensures !Less(b, a)
    decreases |a|
  {
    if |a| > 0 && a[0] == b[0] {
      LessAsymmetric(a[1..], b[1..]);
    }
  }

  /** Two strings neither of which is smaller than the other are equal. */
  lemma {:induction false} LessTrichotomous(a: string, b: string)
    requires !Less(a, b) && !Less(b, a)
    ensures a == b
    decreases |a|
  {
    if |a| > 0 && |b| > 0 {
      LessTrichotomous(a[1..], b[1..]);
      assert a == [a[0]] + a[1..];
      assert b == [b[0]] + b[1..];
    }
  }
}
