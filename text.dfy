/** String operations the ingestion code relies on: `str.upper()` on ticker
    symbols, `str.replace("USDT", "")` on trading pairs, and the byte-wise
    ordering SQLite's `MAX` applies to TEXT columns. */
module Text {

  // ---------------------------------------------------------------------------
  // str.upper() on ASCII letters

  function UpperChar(c: char): (u: char)
  {
    if 'a' <= c <= 'z' then (c as int - 32) as char else c
  }

  /** Python's `str.upper()`, restricted to the ASCII letters that ticker symbols use. */
  function Upper(s: string): (u: string)
    ensures |u| == |s|
    ensures forall i :: 0 <= i < |s| ==> u[i] == UpperChar(s[i])
  {
    if s == [] then [] else [UpperChar(s[0])] + Upper(s[1..])
  }

  predicate IsUpper(s: string)
  {
    forall i :: 0 <= i < |s| ==> !('a' <= s[i] <= 'z')
  }

  /** Upper-casing leaves no lower-case ASCII letter and is idempotent. */
  lemma UpperIdempotent(s: string)
    ensures IsUpper(Upper(s))
    ensures Upper(Upper(s)) == Upper(s)
  {
    assert forall i :: 0 <= i < |s| ==> Upper(Upper(s))[i] == Upper(s)[i];
  }

  // ---------------------------------------------------------------------------
  // str.replace("USDT", "")

  const Quote: string := "USDT"

  predicate UsdtAt(s: string, i: nat)
  {
    i + 4 <= |s| && s[i..i + 4] == Quote
  }

  /** `s` contains the quote suffix "USDT" somewhere. */
  predicate ContainsUsdt(s: string)
  {
    exists i: nat :: i + 4 <= |s| && UsdtAt(s, i)
  }

  /** Python's `s.replace("USDT", "")`: scans left to right and deletes every
      non-overlapping occurrence of "USDT". */
  function StripUsdt(s: string): (r: string)
    ensures |r| <= |s|
  {
    if |s| < 4 then s
    else if s[..4] == Quote then StripUsdt(s[4..])
    else [s[0]] + StripUsdt(s[1..])
  }

  /** Dropping the first character of a string free of "USDT" leaves one free of it. */
  lemma NoUsdtInTail(s: string)
    requires |s| >= 1 && !ContainsUsdt(s)
    ensures !ContainsUsdt(s[1..])
  {
    forall i: nat | i + 4 <= |s[1..]| ensures !UsdtAt(s[1..], i) {
      assert s[1..][i..i + 4] == s[i + 1..i + 5];
      assert !UsdtAt(s, i + 1);
    }
  }

  /** A string free of "USDT" is left as it is. */
  lemma {:induction false} StripUsdtIdentity(s: string)
    requires !ContainsUsdt(s)
    ensures StripUsdt(s) == s
  {
    if |s| >= 4 {
      assert !UsdtAt(s, 0);
      assert s[..4] != Quote by { assert s[..4] == s[0..4]; }
      assert StripUsdt(s) == [s[0]] + StripUsdt(s[1..]);
      NoUsdtInTail(s);
      StripUsdtIdentity(s[1..]);
      assert [s[0]] + s[1..] == s;
    }
  }

  /** A string that starts a match of "USDT" only past its own end: "USDT" has no
      proper prefix that is also a suffix, so appending "USDT" never joins with the
      tail of `x` into an earlier match. */
  lemma NoBorder(x: string)
    requires 0 < |x| < 4
    ensures (x + Quote)[..4] != Quote
  {
    var w := x + Quote;
    if |x| == 1 { assert w[1] == 'U'; }
    else if |x| == 2 { assert w[2] == 'U'; }
    else { assert w[3] == 'U'; }
  }

  /** Removing "USDT" from `x + "USDT"` removes the appended quote and whatever the
      scan removes from `x` itself. */
  lemma {:induction false} StripUsdtSuffix(x: string)
    ensures StripUsdt(x + Quote) == StripUsdt(x)
  {
    var w := x + Quote;
    if x == [] {
      assert w == Quote;
      assert StripUsdt(w) == StripUsdt(w[4..]);
      assert w[4..] == [];
    } else if |x| < 4 {
      NoBorder(x);
      assert w[1..] == x[1..] + Quote;
      StripUsdtSuffix(x[1..]);
      assert StripUsdt(x[1..]) == x[1..];
      assert [x[0]] + x[1..] == x;
    } else if x[..4] == Quote {
      assert w[..4] == x[..4];
      assert w[4..] == x[4..] + Quote;
      StripUsdtSuffix(x[4..]);
    } else {
      assert w[..4] == x[..4];
      assert w[1..] == x[1..] + Quote;
      StripUsdtSuffix(x[1..]);
    }
  }

  /** The base symbol recovered from a pair `symbol + "USDT"` is `symbol` itself
      exactly when `symbol` does not contain "USDT". */
  lemma BaseOfPair(symbol: string)
    requires !ContainsUsdt(symbol)
    ensures StripUsdt(symbol + Quote) == symbol
  {
    StripUsdtSuffix(symbol);
    StripUsdtIdentity(symbol);
  }

  /** Each match the scan deletes takes four characters with it. */
  lemma {:induction false} StripUsdtShortens(s: string)
    requires ContainsUsdt(s)
    ensures |StripUsdt(s)| <= |s| - 4
  {
    var i: nat :| i + 4 <= |s| && UsdtAt(s, i);
    if s[..4] != Quote {
      assert i != 0 by { assert s[..4] == s[0..4]; }
      assert UsdtAt(s[1..], i - 1) by { assert s[1..][i - 1..i + 3] == s[i..i + 4]; }
      StripUsdtShortens(s[1..]);
    }
  }

  /** Both directions of `BaseOfPair`: a symbol containing "USDT" loses part of
      itself along with the quote, so its pair's base is not the symbol. */
  lemma BaseOfPairExactly(symbol: string)
    ensures StripUsdt(symbol + Quote) == symbol <==> !ContainsUsdt(symbol)
  {
    StripUsdtSuffix(symbol);
    if ContainsUsdt(symbol) {
      StripUsdtShortens(symbol);
    } else {
      StripUsdtIdentity(symbol);
    }
  }

  // ---------------------------------------------------------------------------
  // Byte-wise (lexicographic) order, as SQLite's BINARY collation compares TEXT

  /** `a` sorts before or equal to `b`: `a` is a prefix of `b`, or `a` has the
      smaller character at the first position where they differ. */
  predicate LexLe(a: string, b: string)
  {
    a == [] || (b != [] && (a[0] < b[0] || (a[0] == b[0] && LexLe(a[1..], b[1..]))))
  }

  lemma {:induction false} LexLeReflexive(a: string)
    ensures LexLe(a, a)
  {
    if a != [] { LexLeReflexive(a[1..]); }
  }

  lemma {:induction false} LexLeTotal(a: string, b: string)
    ensures LexLe(a, b) || LexLe(b, a)
  {
    if a != [] && b != [] && a[0] == b[0] { LexLeTotal(a[1..], b[1..]); }
  }

  lemma {:induction false} LexLeAntisymmetric(a: string, b: string)
    requires LexLe(a, b) && LexLe(b, a)
    ensures a == b
  {
    if a != [] && b != [] {
      LexLeAntisymmetric(a[1..], b[1..]);
      assert a == [a[0]] + a[1..] && b == [b[0]] + b[1..];
    }
  }

  lemma {:induction false} LexLeTransitive(a: string, b: string, c: string)
    requires LexLe(a, b) && LexLe(b, c)
    ensures LexLe(a, c)
  {
    if a != [] && b != [] && c != [] && a[0] == b[0] && b[0] == c[0] {
      LexLeTransitive(a[1..], b[1..], c[1..]);
    }
  }

  /** SQLite's `MAX` of two TEXT values. */
  function LexMax(a: string, b: string): string
  {
    if LexLe(a, b) then b else a
  }

  /** Comparing two strings that share a prefix of equal length compares the
      prefixes first and the rest only when the prefixes are equal. */
  lemma {:induction false} LexLeConcat(a1: string, b1: string, a2: string, b2: string)
    requires |a1| == |a2|
    ensures LexLe(a1 + b1, a2 + b2) <==>
              (a1 != a2 && LexLe(a1, a2)) || (a1 == a2 && LexLe(b1, b2))
  {
    if a1 != [] {
      assert (a1 + b1)[0] == a1[0] && (a2 + b2)[0] == a2[0];
      assert (a1 + b1)[1..] == a1[1..] + b1 && (a2 + b2)[1..] == a2[1..] + b2;
      LexLeConcat(a1[1..], b1, a2[1..], b2);
      if a1[0] == a2[0] {
        assert a1 == a2 <==> a1[1..] == a2[1..] by {
          assert a1 == [a1[0]] + a1[1..] && a2 == [a2[0]] + a2[1..];
        }
      }
    } else {
      assert a1 + b1 == b1 && a2 + b2 == b2;
    }
  }

  // ---------------------------------------------------------------------------
  // Fixed-width decimal digits ("%04d", "%02d")

  function DigitChar(d: nat): (c: char)
    requires d < 10
  {
    ('0' as int + d) as char
  }

  function DigitValue(c: char): (d: nat)
    requires '0' <= c <= '9'
    ensures d < 10 && DigitChar(d) == c
  {
    c as int - '0' as int
  }

  predicate IsDigit(c: char) { '0' <= c <= '9' }

  predicate AllDigits(s: string)
  {
    forall i :: 0 <= i < |s| ==> IsDigit(s[i])
  }

  function Pow10(w: nat): (p: nat)
    ensures p >= 1
  {
    if w == 0 then 1 else 10 * Pow10(w - 1)
  }

  /** `n` written with exactly `w` decimal digits, zero-padded on the left. */
  function FixedDigits(n: nat, w: nat): (s: string)
    requires n < Pow10(w)
    ensures |s| == w && AllDigits(s)
  {
    if w == 0 then [] else FixedDigits(n / 10, w - 1) + [DigitChar(n % 10)]
  }

  /** The value of a string of decimal digits, as Python's `int()` reads it. */
  function DigitsValue(s: string): (n: nat)
    requires AllDigits(s)
    ensures n < Pow10(|s|)
  {
    if s == [] then 0 else 10 * DigitsValue(s[..|s| - 1]) + DigitValue(s[|s| - 1])
  }

  /** Reading back a fixed-width rendering gives the number. */
  lemma {:induction false} DigitsValueOfFixed(n: nat, w: nat)
    requires n < Pow10(w)
    ensures DigitsValue(FixedDigits(n, w)) == n
  {
    if w > 0 {
      var s := FixedDigits(n, w);
      assert s[..|s| - 1] == FixedDigits(n / 10, w - 1);
      DigitsValueOfFixed(n / 10, w - 1);
    }
  }

  /** Appending digit `d` to the decimal digits of `v`, and splitting it off again. */
  lemma SplitLastDigit(v: nat, d: nat)
    requires d < 10
    ensures (10 * v + d) / 10 == v && (10 * v + d) % 10 == d
  {
  }

  /** Every string of `w` digits is the fixed-width rendering of its value. */
  lemma {:induction false} FixedOfDigitsValue(s: string)
    requires AllDigits(s)
    ensures FixedDigits(DigitsValue(s), |s|) == s
  {
    if s != [] {
      var p, c := s[..|s| - 1], s[|s| - 1];
      var v, d := DigitsValue(p), DigitValue(c);
      FixedOfDigitsValue(p);
      SplitLastDigit(v, d);
      assert DigitsValue(s) == 10 * v + d;
      assert FixedDigits(DigitsValue(s), |s|) == FixedDigits(v, |p|) + [DigitChar(d)];
      assert s == p + [c];
    }
  }

  /** Fixed-width renderings sort as their numbers do. */
  lemma {:induction false} FixedDigitsOrder(x: nat, y: nat, w: nat)
    requires x < Pow10(w) && y < Pow10(w)
    ensures LexLe(FixedDigits(x, w), FixedDigits(y, w)) <==> x <= y
    ensures FixedDigits(x, w) == FixedDigits(y, w) <==> x == y
  {
    if w == 0 {
    } else {
      FixedDigitsOrder(x / 10, y / 10, w - 1);
      var a1, a2 := FixedDigits(x / 10, w - 1), FixedDigits(y / 10, w - 1);
      var c1, c2 := [DigitChar(x % 10)], [DigitChar(y % 10)];
      LexLeConcat(a1, c1, a2, c2);
      assert LexLe(c1, c2) <==> x % 10 <= y % 10 by {
        assert c1[1..] == [] && c2[1..] == [];
      }
      assert a1 + c1 == a2 + c2 <==> a1 == a2 && c1 == c2 by {
        if a1 + c1 == a2 + c2 {
          assert (a1 + c1)[..w - 1] == a1 && (a2 + c2)[..w - 1] == a2;
          assert (a1 + c1)[w - 1] == c1[0] && (a2 + c2)[w - 1] == c2[0];
        }
      }
      assert x == 10 * (x / 10) + x % 10 && y == 10 * (y / 10) + y % 10;
    }
  }

  // ---------------------------------------------------------------------------
  // str(int)

  /** The decimal rendering of a natural number, without leading zeros. */
  function NatText(n: nat): (s: string)
    ensures |s| >= 1 && AllDigits(s)
    ensures |s| > 1 ==> s[0] != '0'
  {
    if n < 10 then [DigitChar(n)] else NatText(n / 10) + [DigitChar(n % 10)]
  }

  /** Python's `str(i)` for an integer. */
  function IntText(i: int): string
  {
    if i < 0 then "-" + NatText(-i) else NatText(i)
  }

  /** Reading the rendering of `n` back gives `n`. */
  lemma {:induction false} NatTextRoundTrip(n: nat)
    ensures DigitsValue(NatText(n)) == n
  {
    if n >= 10 {
      var s := NatText(n);
      assert s[..|s| - 1] == NatText(n / 10);
      NatTextRoundTrip(n / 10);
    }
  }

  /** Python's `int(s)` for an optional minus sign followed by decimal digits. */
  function IntValue(s: string): int
    requires (s != [] && s[0] == '-' && AllDigits(s[1..])) || AllDigits(s)
  {
    if s != [] && s[0] == '-' then 0 - DigitsValue(s[1..]) as int else DigitsValue(s)
  }

  /** `int(str(i)) == i`. */
  lemma IntTextRoundTrip(i: int)
    ensures (IntText(i) != [] && IntText(i)[0] == '-' && AllDigits(IntText(i)[1..])) || AllDigits(IntText(i))
    ensures IntValue(IntText(i)) == i
  {
    if i < 0 {
      NatTextRoundTrip(-i);
      assert IntText(i)[1..] == NatText(-i);
    } else {
      NatTextRoundTrip(i);
    }
  }
}
