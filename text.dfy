/**
 * The string operations of the crawler that Python gives it as built-ins: `int()` of a
 * digit string and `str()` of a count, the `in` operator on strings, `str.replace`,
 * `str.split` and `str.strip`, each with the property that makes it what it is.
 */
module Text {

  predicate IsDigit(c: char) {
    '0' <= c <= '9'
  }

  /** Every character of `s` is an ASCII digit (the class `[0-9]`). */
  predicate AllDigits(s: string) {
    forall k :: 0 <= k < |s| ==> IsDigit(s[k])
  }

  /** A non-empty run of ASCII digits: what `[0-9]+` matches. */
  predicate IsDigits(s: string) {
    |s| > 0 && AllDigits(s)
  }

  function DigitValue(c: char): (d: nat)
    requires IsDigit(c)
    ensures d < 10
  {
    (c as int) - ('0' as int)
  }

  function DigitChar(d: nat): (c: char)
    requires d < 10
    ensures IsDigit(c) && DigitValue(c) == d
  {
    "0123456789"[d]
  }

  /** `int(s)` for a string of ASCII digits: its value in base ten. */
  function DecimalValue(s: string): nat
    requires AllDigits(s)
  {
    if s == [] then 0 else 10 * DecimalValue(s[..|s| - 1]) + DigitValue(s[|s| - 1])
  }

  /** `str(n)` for a natural number: its decimal digits, without leading zeros. */
  function NatToDecimal(n: nat): (s: string)
    ensures IsDigits(s)
    ensures s[0] == '0' ==> n == 0 && |s| == 1
  {
    if n < 10 then [DigitChar(n)] else NatToDecimal(n / 10) + [DigitChar(n % 10)]
  }

  /** Reading back a printed number gives the number. */
  lemma {:induction false} DecimalOfNatToDecimal(n: nat)
    ensures DecimalValue(NatToDecimal(n)) == n
  {
    if n >= 10 {
      var s := NatToDecimal(n);
      assert s[..|s| - 1] == NatToDecimal(n / 10);
      DecimalOfNatToDecimal(n / 10);
    }
  }

  lemma {:induction false} DecimalValuePositive(s: string)
    requires IsDigits(s) && s[0] != '0'
    ensures DecimalValue(s) > 0
  {
    if |s| > 1 {
      DecimalValuePositive(s[..|s| - 1]);
    }
  }

  /** Printing the value of a digit string without leading zeros gives that string back. */
  lemma {:induction false} NatToDecimalOfDecimal(s: string)
    requires IsDigits(s) && (s[0] == '0' ==> |s| == 1)
    ensures NatToDecimal(DecimalValue(s)) == s
  {
    var last := s[|s| - 1];
    assert DigitChar(DigitValue(last)) == last by {
      assert "0123456789"[DigitValue(last)] == last;
    }
    if |s| > 1 {
      var init := s[..|s| - 1];
      DecimalValuePositive(init);
      NatToDecimalOfDecimal(init);
      var v := DecimalValue(s);
      assert v / 10 == DecimalValue(init) && v % 10 == DigitValue(last);
      assert s == init + [last];
    }
  }

  /** `needle` occurs in `hay` starting at index `i`. */
  predicate OccursAt(needle: string, hay: string, i: int) {
    0 <= i && i + |needle| <= |hay| && hay[i..i + |needle|] == needle
  }

  function ContainsFrom(needle: string, hay: string, i: nat): bool
    decreases |hay| - i
  {
    if i + |needle| > |hay| then false
    else hay[i..i + |needle|] == needle || ContainsFrom(needle, hay, i + 1)
  }

  /** Python's `needle in hay` on two strings. */
  function Contains(needle: string, hay: string): bool {
    ContainsFrom(needle, hay, 0)
  }

  lemma {:induction false} ContainsFromIff(needle: string, hay: string, i: nat)
    ensures ContainsFrom(needle, hay, i) <==> exists j :: i <= j && OccursAt(needle, hay, j)
    decreases |hay| - i
  {
    if i + |needle| <= |hay| {
      ContainsFromIff(needle, hay, i + 1);
      if OccursAt(needle, hay, i) {
        assert hay[i..i + |needle|] == needle;
      } else if exists j :: i <= j && OccursAt(needle, hay, j) {
        var j :| i <= j && OccursAt(needle, hay, j);
        assert i + 1 <= j && OccursAt(needle, hay, j);
      }
    }
  }

  /** `needle in hay` holds exactly when `needle` occurs somewhere in `hay`. */
  lemma ContainsIff(needle: string, hay: string)
    ensures Contains(needle, hay) <==> exists j :: OccursAt(needle, hay, j)
  {
    ContainsFromIff(needle, hay, 0);
  }

  /** `s.replace("\n", " ")`. */
  function ReplaceNewlines(s: string): (r: string)
    ensures |r| == |s|
    ensures forall k :: 0 <= k < |s| ==> r[k] == (if s[k] == '\n' then ' ' else s[k])
  {
    if s == [] then [] else [if s[0] == '\n' then ' ' else s[0]] + ReplaceNewlines(s[1..])
  }

  /** `s.split(sep)` for a one-character separator: the pieces between the separators. */
  function Split(s: string, sep: char): (parts: seq<string>)
    ensures |parts| >= 1
    ensures forall k :: 0 <= k < |parts| ==> sep !in parts[k]
  {
    if s == [] then [[]]
    else
      var rest := Split(s[1..], sep);
      if s[0] == sep then [[]] + rest else [[s[0]] + rest[0]] + rest[1..]
  }

  /** `sep.join(parts)`. */
  function Join(parts: seq<string>, sep: char): string
    requires |parts| >= 1
  {
    if |parts| == 1 then parts[0] else parts[0] + [sep] + Join(parts[1..], sep)
  }

  /** Joining the pieces of a split gives the string back. */
  lemma {:induction false} JoinSplit(s: string, sep: char)
    ensures Join(Split(s, sep), sep) == s
  {
    if s != [] {
      var rest := Split(s[1..], sep);
      JoinSplit(s[1..], sep);
      if s[0] != sep {
        var parts := Split(s, sep);
        assert parts[0] == [s[0]] + rest[0] && parts[1..] == rest[1..];
        if |rest| > 1 {
          assert Join(rest, sep) == rest[0] + [sep] + Join(rest[1..], sep);
          assert Join(parts, sep) == ([s[0]] + rest[0]) + [sep] + Join(rest[1..], sep);
        }
        assert [s[0]] + s[1..] == s;
      }
    }
  }

  lemma {:induction false} SplitWithoutSeparator(a: string, sep: char)
    requires sep !in a
    ensures Split(a, sep) == [a]
  {
    if a != [] {
      SplitWithoutSeparator(a[1..], sep);
      assert [a[0]] + a[1..] == a;
    }
  }

  lemma {:induction false} SplitAfterPiece(a: string, t: string, sep: char)
    requires sep !in a
    ensures Split(a + [sep] + t, sep) == [a] + Split(t, sep)
  {
    var s := a + [sep] + t;
    if a == [] {
      assert s[1..] == t;
    } else {
      assert s[1..] == a[1..] + [sep] + t;
      SplitAfterPiece(a[1..], t, sep);
      assert [a[0]] + a[1..] == a;
    }
  }

  /** Splitting a join of separator-free pieces gives the pieces back. */
  lemma {:induction false} SplitJoin(parts: seq<string>, sep: char)
    requires |parts| >= 1
    requires forall k :: 0 <= k < |parts| ==> sep !in parts[k]
    ensures Split(Join(parts, sep), sep) == parts
  {
    if |parts| == 1 {
      SplitWithoutSeparator(parts[0], sep);
    } else {
      SplitJoin(parts[1..], sep);
      SplitAfterPiece(parts[0], Join(parts[1..], sep), sep);
      assert [parts[0]] + parts[1..] == parts;
    }
  }

  function LeadingRun(s: string, c: char): (n: nat)
    ensures n <= |s|
    ensures forall k :: 0 <= k < n ==> s[k] == c
    ensures n < |s| ==> s[n] != c
  {
    if s == [] || s[0] != c then 0 else 1 + LeadingRun(s[1..], c)
  }

  function TrailingRun(s: string, c: char): (n: nat)
    ensures n <= |s|
    ensures forall k :: |s| - n <= k < |s| ==> s[k] == c
    ensures n < |s| ==> s[|s| - 1 - n] != c
  {
    if s == [] || s[|s| - 1] != c then 0 else 1 + TrailingRun(s[..|s| - 1], c)
  }

  /**
   * `s.strip(c)`: `s` without the copies of `c` at either end. The result is the one
   * infix of `s` that neither starts nor ends with `c` and has only copies of `c`
   * around it.
   */
  function Strip(s: string, c: char): (r: string)
    ensures r != [] ==> r[0] != c && r[|r| - 1] != c
    ensures exists a, b :: 0 <= a <= b <= |s| && r == s[a..b]
                           && (forall k :: 0 <= k < a ==> s[k] == c)
                           && (forall k :: b <= k < |s| ==> s[k] == c)
  {
    var a := LeadingRun(s, c);
    var b := |s| - TrailingRun(s[a..], c);
    StripBounds(s, c, a, b);
    s[a..b]
  }

  lemma StripBounds(s: string, c: char, a: nat, b: int)
    requires a == LeadingRun(s, c) && b == |s| - TrailingRun(s[a..], c)
    ensures 0 <= a <= b <= |s|
    ensures a < b ==> s[a] != c && s[b - 1] != c
    ensures forall k :: b <= k < |s| ==> s[k] == c
  {
    var t := s[a..];
    assert forall k :: b <= k < |s| ==> s[k] == t[k - a];
    if a < b {
      assert s[b - 1] == t[|t| - 1 - TrailingRun(t, c)];
    }
  }
}
