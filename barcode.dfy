/** Product barcodes: a 13-character code built from the product code and the clock,
    and its display form with a dash after each complete group of three digits
    (lib/barcode-generator.ts). */
module Barcode {
  import opened Text

  const Width := 13

  /** `Date.now().toString().slice(-6)`: the last six decimal digits of the
      timestamp, or all of them when it has fewer. */
  function Suffix(stamp: nat): (r: string)
    ensures AllDigits(r)
    ensures |r| == if |NatToString(stamp)| >= 6 then 6 else |NatToString(stamp)|
    ensures r == NatToString(stamp)[|NatToString(stamp)| - |r|..]
  {
    var d := NatToString(stamp);
    if |d| >= 6 then d[|d| - 6..] else d
  }

  /** `generateBarcode`: the product code, then the clock suffix, then '0's, cut to
      13 characters. */
  function GenerateBarcode(code: string, stamp: nat): (r: string)
    ensures |r| == Width
    ensures forall i :: 0 <= i < |code| && i < Width ==> r[i] == code[i]
    ensures forall i :: |code| <= i < |code| + |Suffix(stamp)| && i < Width ==> r[i] == Suffix(stamp)[i - |code|]
    ensures forall i :: |code| + |Suffix(stamp)| <= i < Width ==> r[i] == '0'
  {
    var joined := code + Suffix(stamp);
    PadEnd(joined, Width, '0')[..Width]
  }

  /** 10 to the power `k`. */
  function Pow10(k: nat): (r: nat)
    ensures r >= 1
  {
    if k == 0 then 1 else 10 * Pow10(k - 1)
  }

  /** A remainder is determined by any division with a remainder in range. */
  lemma RemainderUnique(n: int, x: int, a: int, r: int)
    requires x > 0 && n == x * a + r && 0 <= r < x
    ensures n % x == r
  {
    var q := n / x;
    var k := a - q;
    assert x * a == x * q + x * k;
    assert x * k == n % x - r;
  }

  /** Dividing by ten, then taking the remainder, regroups into one remainder. */
  lemma RemainderRegroups(n: nat, m: nat)
    requires m >= 1
    ensures ((n / 10) % m) * 10 + n % 10 == n % (10 * m)
  {
    var q, d := n / 10, n % 10;
    var a, b := q / m, q % m;
    assert q == m * a + b;
    assert n == 10 * q + d;
    assert 10 * q == (10 * m) * a + 10 * b;
    RemainderUnique(n, 10 * m, a, 10 * b + d);
  }

  /** A number of at least `10^k` prints with more than `k` digits. */
  lemma {:induction false} LongNumber(n: nat, k: nat)
    requires n >= Pow10(k)
    ensures |NatToString(n)| > k
  {
    if k > 0 {
      LongNumber(n / 10, k - 1);
    }
  }

  /** The last `k` printed digits of `n` read back as `n mod 10^k`. */
  lemma {:induction false} LastDigits(n: nat, k: nat)
    requires k <= |NatToString(n)|
    ensures var d := NatToString(n); DigitsValue(d[|d| - k..]) == n % Pow10(k)
  {
    var d := NatToString(n);
    if k == 0 {
      assert d[|d| - k..] == [];
    } else if n < 10 {
      assert d[|d| - k..] == d;
      assert DigitsValue(d) == DigitsValue(d[..0]) * 10 + n;
    } else {
      var head := NatToString(n / 10);
      assert d == head + [DigitChar(n % 10)];
      var t := d[|d| - k..];
      assert t[..|t| - 1] == head[|head| - (k - 1)..];
      LastDigits(n / 10, k - 1);
      RemainderRegroups(n, Pow10(k - 1));
    }
  }

  /** A code of at most seven characters is followed by the six clock digits, which
      read back as the timestamp modulo one million, then by '0's up to 13. */
  lemma ShortCodeLayout(code: string, stamp: nat)
    requires |code| <= 7 && stamp >= 100000
    ensures var s := Suffix(stamp);
      |s| == 6 && DigitsValue(s) == stamp % 1000000
      && GenerateBarcode(code, stamp) == code + s + Repeat('0', 7 - |code|)
  {
    LongNumber(stamp, 5);
    LastDigits(stamp, 6);
    var s := Suffix(stamp);
    var r := GenerateBarcode(code, stamp);
    var expected := code + s + Repeat('0', 7 - |code|);
    assert forall i :: 0 <= i < Width ==> r[i] == expected[i];
  }

  /** A code of 13 characters or more is cut to its first 13. */
  lemma LongCodeTruncated(code: string, stamp: nat)
    requires |code| >= Width
    ensures GenerateBarcode(code, stamp) == code[..Width]
  {
  }

  /** Every character but '-'. */
  function StripDashes(s: string): (r: string)
    ensures |r| <= |s|
    ensures forall i :: 0 <= i < |r| ==> r[i] != '-'
  {
    if |s| == 0 then ""
    else (if s[0] == '-' then "" else [s[0]]) + StripDashes(s[1..])
  }

  /** `barcode.replace(/(\d{3})(?=\d)/g, "$1-")`: scanning left to right, three digits
      followed by a fourth gain a dash and the scan resumes after them; any other
      character is copied and the scan moves on by one. */
  function FormatBarcode(s: string): (r: string)
    ensures |r| >= |s|
    ensures |s| > 0 ==> |r| > 0 && r[0] == s[0]
    decreases |s|
  {
    if |s| >= 4 && AllDigits(s[..4]) then s[..3] + "-" + FormatBarcode(s[3..])
    else if |s| == 0 then ""
    else [s[0]] + FormatBarcode(s[1..])
  }

  /** Removing dashes splits over concatenation. */
  lemma {:induction false} StripAppend(a: string, b: string)
    ensures StripDashes(a + b) == StripDashes(a) + StripDashes(b)
  {
    if |a| > 0 {
      assert (a + b)[1..] == a[1..] + b;
      StripAppend(a[1..], b);
    } else {
      assert a + b == b;
    }
  }

  /** Formatting only inserts dashes: with every dash removed, input and output agree. */
  lemma {:induction false} FormatOnlyInsertsDashes(s: string)
    ensures StripDashes(FormatBarcode(s)) == StripDashes(s)
    decreases |s|
  {
    if |s| >= 4 && AllDigits(s[..4]) {
      FormatOnlyInsertsDashes(s[3..]);
      StripAppend(s[..3] + "-", FormatBarcode(s[3..]));
      StripAppend(s[..3], "-");
      StripAppend(s[..3], s[3..]);
      assert s == s[..3] + s[3..];
    } else if |s| > 0 {
      FormatOnlyInsertsDashes(s[1..]);
      StripAppend([s[0]], FormatBarcode(s[1..]));
      StripAppend([s[0]], s[1..]);
      assert s == [s[0]] + s[1..];
    }
  }

  /** For a code without dashes, removing the dashes of its display form gives the
      code back. */
  lemma FormatRoundTrip(s: string)
    requires forall i :: 0 <= i < |s| ==> s[i] != '-'
    ensures StripDashes(FormatBarcode(s)) == s
  {
    FormatOnlyInsertsDashes(s);
    NoDashesStripNothing(s);
  }

  lemma {:induction false} NoDashesStripNothing(s: string)
    requires forall i :: 0 <= i < |s| ==> s[i] != '-'
    ensures StripDashes(s) == s
  {
    if |s| > 0 {
      NoDashesStripNothing(s[1..]);
    }
  }

  /** Every dash comes right after three digits and right before a digit. */
  predicate DashesBetweenGroups(r: string)
  {
    forall i :: 0 <= i < |r| && r[i] == '-' ==>
      3 <= i && i + 1 < |r| && IsDigit(r[i - 3]) && IsDigit(r[i - 2]) && IsDigit(r[i - 1]) && IsDigit(r[i + 1])
  }

  /** A group of three digits and a dash in front of well-placed dashes starting with
      a digit keep them well placed. */
  lemma GroupKeepsDashesPlaced(g: string, rest: string)
    requires |g| == 3 && AllDigits(g) && |rest| > 0 && IsDigit(rest[0]) && DashesBetweenGroups(rest)
    ensures DashesBetweenGroups(g + "-" + rest)
  {
    var r := g + "-" + rest;
    forall i | 0 <= i < |r| && r[i] == '-'
      ensures 3 <= i && i + 1 < |r| && IsDigit(r[i - 3]) && IsDigit(r[i - 2]) && IsDigit(r[i - 1]) && IsDigit(r[i + 1])
    {
      if i > 3 {
        assert rest[i - 4] == '-';
        assert r[i - 3] == rest[i - 7] && r[i - 2] == rest[i - 6] && r[i - 1] == rest[i - 5];
        assert r[i + 1] == rest[i - 3];
      } else if i == 3 {
        assert r[0] == g[0] && r[1] == g[1] && r[2] == g[2] && r[4] == rest[0];
      }
    }
  }

  /** One character other than a dash in front of well-placed dashes keeps them well
      placed. */
  lemma CharKeepsDashesPlaced(c: char, rest: string)
    requires c != '-' && DashesBetweenGroups(rest)
    ensures DashesBetweenGroups([c] + rest)
  {
    var r := [c] + rest;
    forall i | 0 <= i < |r| && r[i] == '-'
      ensures 3 <= i && i + 1 < |r| && IsDigit(r[i - 3]) && IsDigit(r[i - 2]) && IsDigit(r[i - 1]) && IsDigit(r[i + 1])
    {
      assert i != 0;
      assert rest[i - 1] == '-';
      assert r[i - 3] == rest[i - 4] && r[i - 2] == rest[i - 3] && r[i - 1] == rest[i - 2];
      assert r[i + 1] == rest[i];
    }
  }

  /** In the display form of a code without dashes, every dash sits between a group
      of three digits and a further digit, so there is never a leading or trailing
      dash. */
  lemma {:induction false} DashesSeparateGroups(s: string)
    requires forall i :: 0 <= i < |s| ==> s[i] != '-'
    ensures DashesBetweenGroups(FormatBarcode(s))
    decreases |s|
  {
    if |s| >= 4 && AllDigits(s[..4]) {
      DashesSeparateGroups(s[3..]);
      assert AllDigits(s[..3]) && IsDigit(s[3]);
      GroupKeepsDashesPlaced(s[..3], FormatBarcode(s[3..]));
    } else if |s| > 0 {
      DashesSeparateGroups(s[1..]);
      CharKeepsDashesPlaced(s[0], FormatBarcode(s[1..]));
    }
  }

  /** A string of `n >= 1` digits gains `(n - 1) / 3` dashes and still ends with its
      last digit. */
  lemma {:induction false} DigitsGainGroupDashes(s: string)
    requires |s| >= 1 && AllDigits(s)
    ensures var r := FormatBarcode(s);
      |r| == |s| + (|s| - 1) / 3 && r[|r| - 1] == s[|s| - 1]
    decreases |s|
  {
    if |s| >= 4 {
      assert AllDigits(s[..4]);
      DigitsGainGroupDashes(s[3..]);
    } else if |s| > 1 {
      DigitsGainGroupDashes(s[1..]);
    }
  }

  /** A group of three digits in front of a digit gains a dash, and the rest is
      formatted on its own. */
  lemma GroupStep(g: string, t: string, ft: string)
    requires |g| == 3 && AllDigits(g) && |t| > 0 && IsDigit(t[0]) && FormatBarcode(t) == ft
    ensures FormatBarcode(g + t) == g + "-" + ft
  {
    var s := g + t;
    assert s[..4] == g + [t[0]] && s[..3] == g && s[3..] == t;
  }

  /** Fewer than four characters are never grouped. */
  lemma {:induction false} ShortUnchanged(t: string)
    requires |t| < 4
    ensures FormatBarcode(t) == t
    decreases |t|
  {
    if |t| > 0 {
      ShortUnchanged(t[1..]);
      assert t == [t[0]] + t[1..];
    }
  }

  /** Twelve digits display as four groups of three joined by dashes, as in
      "123-456-789-012". */
  lemma TwelveDigits(a: string, b: string, c: string, d: string)
    requires |a| == 3 && |b| == 3 && |c| == 3 && |d| == 3
    requires AllDigits(a) && AllDigits(b) && AllDigits(c) && AllDigits(d)
    ensures FormatBarcode(a + (b + (c + d))) == a + "-" + (b + "-" + (c + "-" + d))
  {
    ShortUnchanged(d);
    assert (c + d)[0] == c[0] && (b + (c + d))[0] == b[0];
    GroupStep(c, d, d);
    GroupStep(b, c + d, c + "-" + d);
    GroupStep(a, b + (c + d), b + "-" + (c + "-" + d));
  }
}
