/** String helpers: ASCII `toLowerCase`, `includes`, `String(n)`, `padStart`,
    `padEnd`, and the year-scoped document numbers `P-YYYY-NNNNNN` that sales and
    invoices receive. */
module Text {

  import opened Wrappers

  /** `if (params?.x)` for an optional string: given and not empty. */
  predicate Given(x: Option<string>)
  {
    x.Some? && x.value != ""
  }

  /** `toLowerCase` restricted to ASCII letters. */
  function LowerChar(c: char): char
  {
    if 'A' <= c <= 'Z' then (c as int + 32) as char else c
  }

  function Lower(s: string): (r: string)
    ensures |r| == |s| && forall i :: 0 <= i < |s| ==> r[i] == LowerChar(s[i])
  {
    seq(|s|, i requires 0 <= i < |s| => LowerChar(s[i]))
  }

  /** `sub` occurs in `s` starting at index `i`. */
  predicate OccursAt(s: string, sub: string, i: int)
  {
    0 <= i <= |s| - |sub| && s[i..i + |sub|] == sub
  }

  /** `s.includes(sub)`. */
  predicate Contains(s: string, sub: string)
  {
    exists i :: 0 <= i <= |s| && OccursAt(s, sub, i)
  }

  predicate IsDigit(c: char)
  {
    '0' <= c <= '9'
  }

  predicate AllDigits(s: string)
  {
    forall i :: 0 <= i < |s| ==> IsDigit(s[i])
  }

  function DigitChar(d: nat): (c: char)
    requires d < 10
    ensures IsDigit(c) && c as int - '0' as int == d
  {
    ('0' as int + d) as char
  }

  /** `String(n)` for a natural number: its decimal digits, no leading zero. */
  function NatToString(n: nat): (r: string)
    ensures |r| >= 1 && AllDigits(r)
    ensures n >= 10 ==> r[0] != '0'
    decreases n
  {
    if n < 10 then [DigitChar(n)] else NatToString(n / 10) + [DigitChar(n % 10)]
  }

  /** `String(i)` for an integer. */
  function IntToString(i: int): string
  {
    if i < 0 then "-" + NatToString(-i) else NatToString(i)
  }

  /** The number a string of decimal digits denotes. */
  function DigitsValue(s: string): nat
    requires AllDigits(s)
  {
    if |s| == 0 then 0
    else DigitsValue(s[..|s| - 1]) * 10 + (s[|s| - 1] as int - '0' as int)
  }

  /** Reading back the digits `String(n)` prints gives `n`. */
  lemma {:induction false} NatToStringRoundTrip(n: nat)
    ensures DigitsValue(NatToString(n)) == n
  {
    var r := NatToString(n);
    if n >= 10 {
      NatToStringRoundTrip(n / 10);
      assert r[..|r| - 1] == NatToString(n / 10);
    }
  }

  function Repeat(c: char, n: nat): (r: string)
    ensures |r| == n && forall k :: 0 <= k < n ==> r[k] == c
  {
    seq(n, k requires 0 <= k < n => c)
  }

  /** `s.padStart(width, c)` with a one-character pad. */
  function PadStart(s: string, width: int, c: char): (r: string)
    ensures |r| == if |s| >= width then |s| else width
    ensures r[|r| - |s|..] == s
    ensures forall k :: 0 <= k < |r| - |s| ==> r[k] == c
  {
    if |s| >= width then s else Repeat(c, width - |s|) + s
  }

  /** `s.padEnd(width, c)` with a one-character pad. */
  function PadEnd(s: string, width: int, c: char): (r: string)
    ensures |r| == if |s| >= width then |s| else width
    ensures r[..|s|] == s
    ensures forall k :: |s| <= k < |r| ==> r[k] == c
  {
    if |s| >= width then s else s + Repeat(c, width - |s|)
  }

  /** Leading zeros do not change the value of a digit string. */
  lemma {:induction false} LeadingZeros(k: nat, s: string)
    requires AllDigits(s)
    ensures AllDigits(Repeat('0', k) + s)
    ensures DigitsValue(Repeat('0', k) + s) == DigitsValue(s)
    decreases |s|, k
  {
    var z := Repeat('0', k) + s;
    if |s| == 0 {
      assert z == Repeat('0', k);
      if k > 0 {
        assert z[..|z| - 1] == Repeat('0', k - 1) + s;
        LeadingZeros(k - 1, s);
      }
    } else {
      assert z[..|z| - 1] == Repeat('0', k) + s[..|s| - 1];
      LeadingZeros(k, s[..|s| - 1]);
    }
  }

  /** The number `prefix-YEAR-NNNNNN` given to the `n`-th sale ("V") or
      invoice ("F"): the year in decimal, then `n` left-padded with '0' to six digits. */
  function SequenceNumber(prefix: string, year: int, n: nat): (r: string)
    ensures |r| >= |prefix| + |IntToString(year)| + 8
    ensures r[..|prefix| + 1] == prefix + "-"
  {
    prefix + "-" + IntToString(year) + "-" + PadStart(NatToString(n), 6, '0')
  }

  /** Where the counter starts inside a sequence number. */
  function CounterStart(prefix: string, year: int): nat
  {
    |prefix| + |IntToString(year)| + 2
  }

  /** The counter part of a sequence number is at least six digits and reads
      back as the counter. */
  lemma CounterDecodes(prefix: string, year: int, n: nat)
    ensures var r := SequenceNumber(prefix, year, n);
      var tail := r[CounterStart(prefix, year)..];
      |tail| >= 6 && AllDigits(tail) && DigitsValue(tail) == n
  {
    var r := SequenceNumber(prefix, year, n);
    var digits := NatToString(n);
    var padded := PadStart(digits, 6, '0');
    assert r == (prefix + "-" + IntToString(year) + "-") + padded;
    assert r[CounterStart(prefix, year)..] == padded;
    NatToStringRoundTrip(n);
    if |digits| < 6 {
      assert padded == Repeat('0', 6 - |digits|) + digits;
      LeadingZeros(6 - |digits|, digits);
    }
  }

  /** Two sequence numbers with the same prefix and year are equal only for the same
      counter, so numbers handed out from a growing count never repeat. */
  lemma SequenceNumberInjective(prefix: string, year: int, n: nat, m: nat)
    requires SequenceNumber(prefix, year, n) == SequenceNumber(prefix, year, m)
    ensures n == m
  {
    CounterDecodes(prefix, year, n);
    CounterDecodes(prefix, year, m);
  }
}
