// The identifier printer behind MemoryStore.nextID and the reading of the
// counter back out of an identifier.
module Ids {

  function Digit(d: nat): char
    requires d < 10
  {
    ('0' as int + d) as char
  }

  predicate IsDigit(c: char) {
    '0' <= c <= '9'
  }

  /** Decimal digits of n without leading zeros. */
  function Decimal(n: nat): (s: string)
    ensures |s| > 0 && forall c | c in s :: IsDigit(c)
  {
    if n < 10 then [Digit(n)] else Decimal(n / 10) + [Digit(n % 10)]
  }

  function Zeros(k: nat): (s: string)
    ensures |s| == k && forall c | c in s :: c == '0'
  {
    seq(k, _ => '0')
  }

  /** The fmt verb %06d for a non-negative value. */
  function Padded(n: nat): (s: string)
    ensures |s| >= 6 && forall c | c in s :: IsDigit(c)
  {
    var d := Decimal(n);
    if |d| >= 6 then d else Zeros(6 - |d|) + d
  }

  /** fmt.Sprintf("%s-%06d", prefix, n) */
  function IdText(prefix: string, n: nat): string {
    prefix + "-" + Padded(n)
  }

  /** The value of a digit string; characters that are no digits count as zero. */
  function ReadDecimal(s: string): nat {
    if s == "" then 0
    else
      var last := s[|s| - 1];
      10 * ReadDecimal(s[..|s| - 1]) + if IsDigit(last) then last as int - '0' as int else 0
  }

  /** What follows the last dash, or the whole string when there is none. */
  function AfterLastDash(s: string): string {
    if s == "" || s[|s| - 1] == '-' then "" else AfterLastDash(s[..|s| - 1]) + [s[|s| - 1]]
  }

  function CounterOf(id: string): nat {
    ReadDecimal(AfterLastDash(id))
  }

  lemma {:induction false} ReadDecimalInvertsDecimal(n: nat)
    ensures ReadDecimal(Decimal(n)) == n
  {
    if n >= 10 {
      ReadDecimalInvertsDecimal(n / 10);
      assert Decimal(n)[..|Decimal(n)| - 1] == Decimal(n / 10);
    } else {
      assert [Digit(n)][..0] == "";
    }
  }

  lemma {:induction false} ReadDecimalSkipsZeros(k: nat, s: string)
    ensures ReadDecimal(Zeros(k) + s) == ReadDecimal(s)
  {
    var z := Zeros(k);
    if s != "" {
      assert (z + s)[..|z + s| - 1] == z + s[..|s| - 1];
      ReadDecimalSkipsZeros(k, s[..|s| - 1]);
    } else if k > 0 {
      assert z + s == z;
      assert z[..k - 1] == Zeros(k - 1) + "";
      ReadDecimalSkipsZeros(k - 1, "");
    }
  }

  lemma {:induction false} AfterLastDashOfId(prefix: string, d: string)
    requires '-' !in d
    ensures AfterLastDash(prefix + "-" + d) == d
  {
    var s := prefix + "-" + d;
    if d != "" {
      assert s[..|s| - 1] == prefix + "-" + d[..|d| - 1];
      AfterLastDashOfId(prefix, d[..|d| - 1]);
    }
  }

  /** Reading the digits after the last dash returns the counter, whatever the
      prefix is and however wide the counter has become. */
  lemma CounterOfIdText(prefix: string, n: nat)
    ensures CounterOf(IdText(prefix, n)) == n
  {
    AfterLastDashOfId(prefix, Padded(n));
    ReadDecimalInvertsDecimal(n);
    var d := Decimal(n);
    if |d| < 6 {
      ReadDecimalSkipsZeros(6 - |d|, d);
    }
  }

  /** Two generated identifiers are equal only if prefix and counter are. */
  lemma IdTextInjective(prefix: string, n: nat, prefix': string, n': nat)
    ensures IdText(prefix, n) == IdText(prefix', n') <==> prefix == prefix' && n == n'
  {
    CounterOfIdText(prefix, n);
    CounterOfIdText(prefix', n');
    if IdText(prefix, n) == IdText(prefix', n') {
      var s := IdText(prefix, n);
      assert prefix == s[..|s| - |Padded(n)| - 1];
      assert prefix' == s[..|s| - |Padded(n)| - 1];
    }
  }

  /** Up to six digits the counter is padded to six, beyond that it is printed as it is. */
  lemma PaddedWidth(n: nat)
    ensures |Padded(n)| == if |Decimal(n)| < 6 then 6 else |Decimal(n)|
    ensures |Decimal(n)| >= 6 ==> Padded(n) == Decimal(n)
    ensures Padded(n)[|Padded(n)| - |Decimal(n)|..] == Decimal(n)
  {
  }

  /** No leading zeros but for zero itself. */
  lemma {:induction false} DecimalIsShort(n: nat)
    ensures Decimal(n)[0] == '0' <==> n == 0
  {
    if n >= 10 {
      DecimalIsShort(n / 10);
    }
  }
}
