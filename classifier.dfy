/**
 * The promotion classifier (main.py:156-163 and 251-267). A promotion is matched when a
 * configured criterion is a substring of its title or, failing that, when its title
 * offers a fulfil-deduct deal ("满F元减D元" or "每满F元，可减D元现金") with 2*D >= F.
 *
 * The two regular expressions are literal characters and `[0-9]+` parts, so they are
 * written here as a `Pattern`; `MatchAt` is the regular-expression match at one
 * position and `FindAll` is `re.findall`. The lemmas show that the scan the source
 * performs accepts a title exactly when some occurrence of either pattern in it carries
 * a qualifying pair of numbers.
 */
module Classifier {
  import opened Wrappers
  import opened Text

  /** A literal character, or the class `[0-9]+`. */
  datatype Token = Lit(c: char) | Num

  type Pattern = seq<Token>

  /** `满[0-9]+元减[0-9]+元` */
  const FULFIL_DEDUCT: Pattern := [Lit('满'), Num, Lit('元'), Lit('减'), Num, Lit('元')]

  /** `每满[0-9]+元，可减[0-9]+元现金` */
  const EVERY_FULFIL_DEDUCT: Pattern :=
    [Lit('每'), Lit('满'), Num, Lit('元'), Lit('，'), Lit('可'), Lit('减'), Num, Lit('元'), Lit('现'), Lit('金')]

  /** The whole of `t` is matched by `pat`, `runs` being the texts of its `[0-9]+` parts. */
  predicate Matches(pat: Pattern, t: string, runs: seq<string>)
    decreases pat
  {
    if pat == [] then t == [] && runs == []
    else match pat[0]
      case Lit(c) => |t| > 0 && t[0] == c && Matches(pat[1..], t[1..], runs)
      case Num => |runs| > 0 && IsDigits(runs[0]) && runs[0] <= t && Matches(pat[1..], t[|runs[0]|..], runs[1..])
  }

  /** `pat` matches the slice `s[p..q]` of `s`. */
  ghost predicate MatchesAt(pat: Pattern, s: string, p: int, q: int, runs: seq<string>) {
    0 <= p <= q <= |s| && Matches(pat, s[p..q], runs)
  }

  /** No literal is a digit and every `[0-9]+` is followed by a literal. */
  predicate Delimited(pat: Pattern) {
    (forall k :: 0 <= k < |pat| && pat[k].Lit? ==> !IsDigit(pat[k].c))
    && (forall k :: 0 <= k < |pat| && pat[k].Num? ==> k + 1 < |pat| && pat[k + 1].Lit?)
  }

  /** The pattern starts with a literal that occurs nowhere else in it. */
  predicate Anchored(pat: Pattern) {
    |pat| > 0 && pat[0].Lit?
    && forall k :: 1 <= k < |pat| && pat[k].Lit? ==> pat[k].c != pat[0].c
  }

  predicate WellFormed(pat: Pattern) {
    Delimited(pat) && Anchored(pat)
  }

  lemma WellFormedPatterns()
    ensures WellFormed(FULFIL_DEDUCT) && WellFormed(EVERY_FULFIL_DEDUCT)
  {
  }

  /** The length of the longest run of digits of `s` that starts at index `i`. */
  function DigitRun(s: string, i: nat): (n: nat)
    requires i <= |s|
    ensures i + n <= |s|
    ensures forall k :: i <= k < i + n ==> IsDigit(s[k])
    ensures i + n < |s| ==> !IsDigit(s[i + n])
    decreases |s| - i
  {
    if i < |s| && IsDigit(s[i]) then 1 + DigitRun(s, i + 1) else 0
  }

  /** A run of digits that ends where the digits end is the one `DigitRun` finds. */
  lemma {:induction false} DigitRunExact(s: string, i: nat, w: nat)
    requires i + w <= |s|
    requires forall k :: i <= k < i + w ==> IsDigit(s[k])
    requires i + w < |s| ==> !IsDigit(s[i + w])
    ensures DigitRun(s, i) == w
    decreases w
  {
    if w > 0 {
      assert IsDigit(s[i]);
      DigitRunExact(s, i + 1, w - 1);
    }
  }

  /** A successful match: the texts of the `[0-9]+` parts and the end of the matched slice. */
  datatype Hit = Hit(runs: seq<string>, end: nat)

  /**
   * The regular-expression match of `pat` at index `i` of `s`. Each `[0-9]+` takes the
   * longest run of digits; as the next token of a delimited pattern is a literal that is
   * not a digit, backtracking could not give a shorter run a chance.
   */
  function MatchAt(pat: Pattern, s: string, i: nat): (r: Option<Hit>)
    requires i <= |s|
    ensures r.Some? ==> i + |pat| <= r.value.end <= |s|
    decreases pat
  {
    if pat == [] then Some(Hit([], i))
    else match pat[0]
      case Lit(c) =>
        if i < |s| && s[i] == c then MatchAt(pat[1..], s, i + 1) else None
      case Num =>
        var n := DigitRun(s, i);
        if n == 0 then None
        else match MatchAt(pat[1..], s, i + n)
          case None => None
          case Some(h) => Some(Hit([s[i..i + n]] + h.runs, h.end))
  }

  /** What `MatchAt` finds is a match. */
  lemma {:induction false} MatchAtSound(pat: Pattern, s: string, i: nat)
    requires i <= |s| && MatchAt(pat, s, i).Some?
    ensures MatchesAt(pat, s, i, MatchAt(pat, s, i).value.end, MatchAt(pat, s, i).value.runs)
    decreases pat
  {
    var h := MatchAt(pat, s, i).value;
    if pat != [] {
      match pat[0]
      case Lit(c) =>
        assert MatchAt(pat, s, i) == MatchAt(pat[1..], s, i + 1);
        MatchAtSound(pat[1..], s, i + 1);
        assert s[i..h.end][1..] == s[i + 1..h.end];
      case Num =>
        var n := DigitRun(s, i);
        var rest := MatchAt(pat[1..], s, i + n).value;
        assert h == Hit([s[i..i + n]] + rest.runs, rest.end);
        MatchAtSound(pat[1..], s, i + n);
        var t := s[i..h.end];
        assert t[..n] == s[i..i + n] && t[n..] == s[i + n..h.end];
        var run := s[i..i + n];
        assert IsDigits(run) by {
          forall k | 0 <= k < |run| ensures IsDigit(run[k]) {
            assert run[k] == s[i + k];
          }
        }
        assert h.runs[0] == s[i..i + n] && h.runs[1..] == rest.runs;
    }
  }

  lemma DelimitedTail(pat: Pattern)
    requires |pat| > 0 && Delimited(pat)
    ensures Delimited(pat[1..])
  {
    forall k | 0 <= k < |pat[1..]| && pat[1..][k].Num?
      ensures k + 1 < |pat[1..]| && pat[1..][k + 1].Lit?
    {
      assert pat[k + 1].Num?;
    }
  }

  /** Every match of a delimited pattern at `i` is the one `MatchAt` finds there. */
  lemma {:induction false} MatchAtComplete(pat: Pattern, s: string, i: nat, j: nat, runs: seq<string>)
    requires Delimited(pat) && MatchesAt(pat, s, i, j, runs)
    ensures MatchAt(pat, s, i) == Some(Hit(runs, j))
    decreases pat
  {
    var t := s[i..j];
    if pat != [] {
      DelimitedTail(pat);
      match pat[0]
      case Lit(c) =>
        assert t[0] == s[i] == c && t[1..] == s[i + 1..j];
        MatchAtComplete(pat[1..], s, i + 1, j, runs);
        assert MatchAt(pat, s, i) == MatchAt(pat[1..], s, i + 1);
      case Num =>
        var w := |runs[0]|;
        assert t[w..] == s[i + w..j];
        assert pat[1].Lit? && !IsDigit(pat[1].c);
        assert |t| > w && t[w] == pat[1].c by {
          assert Matches(pat[1..], t[w..], runs[1..]);
          assert pat[1..] != [] && pat[1..][0] == pat[1];
          assert |t[w..]| > 0 && t[w..][0] == pat[1].c;
        }
        forall k | i <= k < i + w ensures IsDigit(s[k]) {
          assert s[k] == runs[0][k - i];
        }
        DigitRunExact(s, i, w);
        MatchAtComplete(pat[1..], s, i + w, j, runs[1..]);
        assert s[i..i + w] == runs[0];
        assert [runs[0]] + runs[1..] == runs;
        assert MatchAt(pat, s, i) == Some(Hit([s[i..i + w]] + runs[1..], j));
    }
  }

  /** Every character of a matched text is a digit or one of the pattern's literals. */
  lemma {:induction false} MatchedChars(pat: Pattern, t: string, runs: seq<string>)
    requires Matches(pat, t, runs)
    ensures forall k :: 0 <= k < |t| ==> IsDigit(t[k]) || Lit(t[k]) in pat
    decreases pat
  {
    if pat != [] {
      match pat[0]
      case Lit(c) =>
        MatchedChars(pat[1..], t[1..], runs);
        forall k | 1 <= k < |t| ensures IsDigit(t[k]) || Lit(t[k]) in pat {
          assert t[k] == t[1..][k - 1];
          if Lit(t[k]) in pat[1..] {
            var m :| 0 <= m < |pat[1..]| && pat[1..][m] == Lit(t[k]);
            assert pat[m + 1] == Lit(t[k]);
          }
        }
      case Num =>
        var w := |runs[0]|;
        MatchedChars(pat[1..], t[w..], runs[1..]);
        forall k | 0 <= k < |t| ensures IsDigit(t[k]) || Lit(t[k]) in pat {
          if k < w {
            assert t[k] == runs[0][k];
          } else {
            assert t[k] == t[w..][k - w];
            if Lit(t[k]) in pat[1..] {
              var m :| 0 <= m < |pat[1..]| && pat[1..][m] == Lit(t[k]);
              assert pat[m + 1] == Lit(t[k]);
            }
          }
        }
    }
  }

  /** The first literal of an anchored pattern appears in a matched text only at its start. */
  lemma MatchedTextAnchor(pat: Pattern, t: string, runs: seq<string>)
    requires WellFormed(pat) && Matches(pat, t, runs)
    ensures |t| > 0 && t[0] == pat[0].c
    ensures forall k :: 1 <= k < |t| ==> t[k] != pat[0].c
  {
    MatchedChars(pat[1..], t[1..], runs);
    forall k | 1 <= k < |t| ensures t[k] != pat[0].c {
      assert t[k] == t[1..][k - 1];
      if Lit(t[k]) in pat[1..] {
        var m :| 0 <= m < |pat[1..]| && pat[1..][m] == Lit(t[k]);
        assert pat[m + 1] == Lit(t[k]);
      }
    }
  }

  /** A match cannot reach over a later position where the anchoring literal stands. */
  lemma MatchNotAcross(pat: Pattern, s: string, i: nat, e: nat, runs: seq<string>, p: nat)
    requires WellFormed(pat) && MatchesAt(pat, s, i, e, runs) && i < p < e
    ensures s[p] != pat[0].c
  {
    MatchedTextAnchor(pat, s[i..e], runs);
    assert s[i..e][p - i] == s[p];
  }

  /** The number of `[0-9]+` parts of a pattern. */
  function NumCount(pat: Pattern): nat {
    multiset(pat)[Num]
  }

  /** A pattern the source's scan can read: well formed, with two `[0-9]+` parts. */
  predicate Scannable(pat: Pattern) {
    |pat| > 0 && WellFormed(pat) && NumCount(pat) == 2
  }

  /** The patterns `_check_fulfil_deduct_pattern` tries, in order. */
  const PATTERNS: seq<Pattern> := [FULFIL_DEDUCT, EVERY_FULFIL_DEDUCT]

  lemma PatternsScannable()
    ensures forall m :: 0 <= m < |PATTERNS| ==> Scannable(PATTERNS[m])
  {
    WellFormedPatterns();
  }

  /** A match binds one text per `[0-9]+` part of the pattern. */
  lemma {:induction false} RunsCount(pat: Pattern, t: string, runs: seq<string>)
    requires Matches(pat, t, runs)
    ensures |runs| == NumCount(pat)
    decreases pat
  {
    if pat != [] {
      assert pat == [pat[0]] + pat[1..];
      match pat[0]
      case Lit(c) =>
        RunsCount(pat[1..], t[1..], runs);
      case Num =>
        RunsCount(pat[1..], t[|runs[0]|..], runs[1..]);
    }
  }

  /** `re.findall("[0-9]+", t)`: the maximal runs of digits of `t`, left to right. */
  function DigitTokens(t: string): (tokens: seq<string>)
    ensures forall k :: 0 <= k < |tokens| ==> IsDigits(tokens[k])
    decreases |t|
  {
    if t == [] then []
    else if !IsDigit(t[0]) then DigitTokens(t[1..])
    else
      var n := DigitRun(t, 0);
      [t[..n]] + DigitTokens(t[n..])
  }

  /** The digit tokens of a text matched by a delimited pattern are its `[0-9]+` parts. */
  lemma {:induction false} DigitTokensOfMatch(pat: Pattern, t: string, runs: seq<string>)
    requires Delimited(pat) && Matches(pat, t, runs)
    ensures DigitTokens(t) == runs
    decreases pat
  {
    if pat != [] {
      DelimitedTail(pat);
      match pat[0]
      case Lit(c) =>
        DigitTokensOfMatch(pat[1..], t[1..], runs);
      case Num =>
        var w := |runs[0]|;
        assert pat[1].Lit? && !IsDigit(pat[1].c);
        assert |t| > w && t[w] == pat[1].c by {
          assert Matches(pat[1..], t[w..], runs[1..]);
          assert pat[1..] != [] && pat[1..][0] == pat[1];
          assert |t[w..]| > 0 && t[w..][0] == pat[1].c;
        }
        forall k | 0 <= k < w ensures IsDigit(t[k]) {
          assert t[k] == runs[0][k];
        }
        DigitRunExact(t, 0, w);
        DigitTokensOfMatch(pat[1..], t[w..], runs[1..]);
        assert t[..w] == runs[0];
        assert [runs[0]] + runs[1..] == runs;
    }
  }

  /** A text found by `re.findall`, where it starts, and the texts of its `[0-9]+` parts. */
  datatype Occurrence = Occurrence(start: nat, text: string, runs: seq<string>)

  /**
   * `re.findall(pat, s[i..])`: scanning left to right, each match is taken and the scan
   * resumes where it ended; where nothing matches the scan moves one character on.
   */
  function FindAll(pat: Pattern, s: string, i: nat): seq<Occurrence>
    requires |pat| > 0 && i <= |s|
    decreases |s| - i
  {
    if i == |s| then []
    else match MatchAt(pat, s, i)
      case Some(h) => [Occurrence(i, s[i..h.end], h.runs)] + FindAll(pat, s, h.end)
      case None => FindAll(pat, s, i + 1)
  }

  /** Everything `re.findall` returns is a match in `s` at or after `i`. */
  lemma {:induction false} FindAllSound(pat: Pattern, s: string, i: nat)
    requires |pat| > 0 && i <= |s|
    ensures forall k :: 0 <= k < |FindAll(pat, s, i)| ==> Found(pat, s, i, FindAll(pat, s, i)[k])
    decreases |s| - i
  {
    if i < |s| {
      var all := FindAll(pat, s, i);
      match MatchAt(pat, s, i)
      case Some(h) =>
        var rest := FindAll(pat, s, h.end);
        assert all == [Occurrence(i, s[i..h.end], h.runs)] + rest;
        MatchAtSound(pat, s, i);
        FindAllSound(pat, s, h.end);
        forall k | 0 <= k < |all| ensures Found(pat, s, i, all[k]) {
          if k > 0 {
            assert all[k] == rest[k - 1];
          }
        }
      case None =>
        FindAllSound(pat, s, i + 1);
    }
  }

  /** `o` is a match of `pat` in `s` at or after `i`, `o.text` being the slice it covers. */
  ghost predicate Found(pat: Pattern, s: string, i: nat, o: Occurrence) {
    i <= o.start && MatchesAt(pat, s, o.start, o.start + |o.text|, o.runs) && o.text == s[o.start..o.start + |o.text|]
  }

  /** Every match of a well-formed pattern at or after `i` is among those `re.findall` returns. */
  lemma {:induction false} FindAllComplete(pat: Pattern, s: string, i: nat, p: nat, q: nat, runs: seq<string>)
    requires WellFormed(pat) && i <= p && MatchesAt(pat, s, p, q, runs)
    ensures exists k :: 0 <= k < |FindAll(pat, s, i)| && FindAll(pat, s, i)[k] == Occurrence(p, s[p..q], runs)
    decreases |s| - i
  {
    MatchedTextAnchor(pat, s[p..q], runs);
    var c := pat[0].c;
    assert s[p] == c by {
      assert s[p..q][0] == s[p];
    }
    var occs := FindAll(pat, s, i);
    match MatchAt(pat, s, i)
    case Some(h) =>
      if i == p {
        MatchAtComplete(pat, s, p, q, runs);
        assert occs[0] == Occurrence(p, s[p..q], runs);
      } else {
        MatchAtSound(pat, s, i);
        if p < h.end {
          MatchNotAcross(pat, s, i, h.end, h.runs, p);
          assert false;
        }
        FindAllComplete(pat, s, h.end, p, q, runs);
        var k :| 0 <= k < |FindAll(pat, s, h.end)| && FindAll(pat, s, h.end)[k] == Occurrence(p, s[p..q], runs);
        assert occs[k + 1] == FindAll(pat, s, h.end)[k];
      }
    case None =>
      if i == p {
        MatchAtComplete(pat, s, p, q, runs);
        assert false;
      }
      FindAllComplete(pat, s, i + 1, p, q, runs);
      var k :| 0 <= k < |FindAll(pat, s, i + 1)| && FindAll(pat, s, i + 1)[k] == Occurrence(p, s[p..q], runs);
      assert occs[k] == FindAll(pat, s, i + 1)[k];
  }

  /**
   * The deal a fulfil-deduct text offers is worth taking: with F and D its first two
   * numbers, the deduction is at least half the amount to fulfil (2*D >= F).
   */
  predicate HalfOrMore(numbers: seq<string>) {
    |numbers| >= 2 && AllDigits(numbers[0]) && AllDigits(numbers[1])
    && 2 * DecimalValue(numbers[1]) >= DecimalValue(numbers[0])
  }

  /**
   * The test on one text found by `re.findall`: its digit tokens are read as
   * `fulfil = int(tokens[0])` and `deduct = int(tokens[1])`. (A matched text always
   * holds two tokens, `DigitTokensOfMatch`; the source would raise on fewer.)
   */
  function TextQualifies(txt: string): bool {
    HalfOrMore(DigitTokens(txt))
  }

  /** The inner loop of the source: some text found qualifies. */
  function AnyQualifies(occs: seq<Occurrence>): bool {
    exists k :: 0 <= k < |occs| && TextQualifies(occs[k].text)
  }

  /** `_check_fulfil_deduct_pattern(title)`: both patterns, every text each one finds. */
  function CheckFulfilDeductPattern(title: string): bool {
    PatternsScannable();
    exists m :: 0 <= m < |PATTERNS| && AnyQualifies(FindAll(PATTERNS[m], title, 0))
  }

  /**
   * `_check_fulfil_deduct_pattern(title)` as the source runs it: try each pattern in turn
   * and answer `True` as soon as one of them finds a qualifying text.
   */
  method FulfilDeductCheck(title: string) returns (found: bool)
    ensures found == CheckFulfilDeductPattern(title)
  {
    PatternsScannable();
    found := ScanPatterns(PATTERNS, title);
  }

  /** The source's loop over its patterns: stop at the first that finds a qualifying text. */
  method ScanPatterns(patterns: seq<Pattern>, title: string) returns (found: bool)
    requires forall m :: 0 <= m < |patterns| ==> Scannable(patterns[m])
    ensures found <==> exists m :: 0 <= m < |patterns| && Scannable(patterns[m]) && AnyQualifies(FindAll(patterns[m], title, 0))
  {
    var p := 0;
    while p < |patterns|
      invariant 0 <= p <= |patterns|
      invariant forall m :: 0 <= m < p ==> !AnyQualifies(FindAll(patterns[m], title, 0))
    {
      found := ScanPattern(patterns[p], title);
      if found {
        return;
      }
      p := p + 1;
    }
    return false;
  }

  /**
   * The body of the source's loop over the patterns (main.py:255-265): for each text
   * `re.findall` returns, read its first two digit runs and stop at the first whose
   * deduction is at least half the amount. (`re.match(pattern, txt).regs` has a single
   * entry for these group-free patterns, so the innermost loop runs once.) A text found
   * always holds two runs, so `tokens[0]` and `tokens[1]` exist.
   */
  method ScanPattern(pat: Pattern, title: string) returns (found: bool)
    requires Scannable(pat)
    ensures found == AnyQualifies(FindAll(pat, title, 0))
  {
    var txts := FindAll(pat, title, 0);
    FindAllSound(pat, title, 0);
    var k := 0;
    while k < |txts|
      invariant 0 <= k <= |txts|
      invariant forall m :: 0 <= m < k ==> !TextQualifies(txts[m].text)
    {
      var txt := txts[k].text;
      assert Matches(pat, txt, txts[k].runs);
      DigitTokensOfMatch(pat, txt, txts[k].runs);
      RunsCount(pat, txt, txts[k].runs);
      var tokens := DigitTokens(txt);
      var fulfil := DecimalValue(tokens[0]);
      var deduct := DecimalValue(tokens[1]);
      if deduct * 2 >= fulfil {
        assert TextQualifies(txts[k].text);
        return true;
      }
      k := k + 1;
    }
    return false;
  }

  /** Some occurrence of `pat` in `s` offers a qualifying deal. */
  ghost predicate HasQualifyingOccurrence(pat: Pattern, s: string) {
    exists p, q, runs :: MatchesAt(pat, s, p, q, runs) && HalfOrMore(runs)
  }

  /** The scan of one pattern accepts exactly when some occurrence of it qualifies. */
  lemma ScanIff(pat: Pattern, s: string)
    requires WellFormed(pat)
    ensures AnyQualifies(FindAll(pat, s, 0)) <==> HasQualifyingOccurrence(pat, s)
  {
    var occs := FindAll(pat, s, 0);
    FindAllSound(pat, s, 0);
    if AnyQualifies(occs) {
      var k :| 0 <= k < |occs| && TextQualifies(occs[k].text);
      var o := occs[k];
      DigitTokensOfMatch(pat, o.text, o.runs);
      assert MatchesAt(pat, s, o.start, o.start + |o.text|, o.runs) && HalfOrMore(o.runs);
    }
    if HasQualifyingOccurrence(pat, s) {
      var p, q, runs :| MatchesAt(pat, s, p, q, runs) && HalfOrMore(runs);
      FindAllComplete(pat, s, 0, p, q, runs);
      var k :| 0 <= k < |occs| && occs[k] == Occurrence(p, s[p..q], runs);
      DigitTokensOfMatch(pat, s[p..q], runs);
      assert TextQualifies(occs[k].text);
    }
  }

  /**
   * The fulfil-deduct check accepts a title exactly when "满F元减D元" or
   * "每满F元，可减D元现金" occurs in it with 2*D >= F for that occurrence; with no
   * occurrence it rejects.
   */
  lemma CheckFulfilDeductPatternIff(title: string)
    ensures CheckFulfilDeductPattern(title)
            <==> HasQualifyingOccurrence(FULFIL_DEDUCT, title) || HasQualifyingOccurrence(EVERY_FULFIL_DEDUCT, title)
  {
    WellFormedPatterns();
    ScanIff(FULFIL_DEDUCT, title);
    ScanIff(EVERY_FULFIL_DEDUCT, title);
    assert PATTERNS[0] == FULFIL_DEDUCT && PATTERNS[1] == EVERY_FULFIL_DEDUCT;
  }

  /** The text "满F元减D元" for two amounts. */
  function FulfilDeductText(fulfil: nat, deduct: nat): string {
    "满" + (NatToDecimal(fulfil) + ("元" + ("减" + (NatToDecimal(deduct) + "元"))))
  }

  lemma MatchesLit(c: char, pat: Pattern, t: string, runs: seq<string>)
    requires Matches(pat, t, runs)
    ensures Matches([Lit(c)] + pat, [c] + t, runs)
  {
    assert ([Lit(c)] + pat)[1..] == pat && ([c] + t)[1..] == t;
  }

  lemma MatchesNum(pat: Pattern, d: string, t: string, runs: seq<string>)
    requires IsDigits(d) && Matches(pat, t, runs)
    ensures Matches([Num] + pat, d + t, [d] + runs)
  {
    assert ([Num] + pat)[1..] == pat && (d + t)[|d|..] == t && ([d] + runs)[1..] == runs;
  }

  lemma MatchesFulfilDeductText(fulfil: nat, deduct: nat)
    ensures Matches(FULFIL_DEDUCT, FulfilDeductText(fulfil, deduct), [NatToDecimal(fulfil), NatToDecimal(deduct)])
  {
    var f, d := NatToDecimal(fulfil), NatToDecimal(deduct);
    MatchesLit('元', [], [], []);
    MatchesNum([Lit('元')], d, ['元'], []);
    MatchesLit('减', [Num, Lit('元')], d + ['元'], [d]);
    MatchesLit('元', [Lit('减'), Num, Lit('元')], ['减'] + (d + ['元']), [d]);
    MatchesNum([Lit('元'), Lit('减'), Num, Lit('元')], f, ['元'] + (['减'] + (d + ['元'])), [d]);
    MatchesLit('满', [Num, Lit('元'), Lit('减'), Num, Lit('元')], f + (['元'] + (['减'] + (d + ['元']))), [f, d]);
  }

  /** In "满F元减D元", the pattern matches at the start only, binding F and D. */
  lemma FulfilDeductTextOccurrence(fulfil: nat, deduct: nat, p: int, q: int, runs: seq<string>)
    requires MatchesAt(FULFIL_DEDUCT, FulfilDeductText(fulfil, deduct), p, q, runs)
    ensures runs == [NatToDecimal(fulfil), NatToDecimal(deduct)]
  {
    var s := FulfilDeductText(fulfil, deduct);
    var whole := [NatToDecimal(fulfil), NatToDecimal(deduct)];
    WellFormedPatterns();
    MatchesFulfilDeductText(fulfil, deduct);
    assert s[0..|s|] == s;
    MatchedTextAnchor(FULFIL_DEDUCT, s[p..q], runs);
    assert s[p] == '满' by {
      assert s[p..q][0] == s[p];
    }
    if p > 0 {
      MatchNotAcross(FULFIL_DEDUCT, s, 0, |s|, whole, p);
      assert false;
    }
    MatchAtComplete(FULFIL_DEDUCT, s, 0, q, runs);
    MatchAtComplete(FULFIL_DEDUCT, s, 0, |s|, whole);
  }

  /** "满F元减D元" is made of digits, '满', '元' and '减'. */
  lemma FulfilDeductTextChar(fulfil: nat, deduct: nat, k: int)
    requires 0 <= k < |FulfilDeductText(fulfil, deduct)|
    ensures var c := FulfilDeductText(fulfil, deduct)[k];
            IsDigit(c) || c == '满' || c == '元' || c == '减'
  {
    var s := FulfilDeductText(fulfil, deduct);
    MatchesFulfilDeductText(fulfil, deduct);
    MatchedChars(FULFIL_DEDUCT, s, [NatToDecimal(fulfil), NatToDecimal(deduct)]);
    assert IsDigit(s[k]) || Lit(s[k]) in FULFIL_DEDUCT;
  }

  /** "每满F元，可减D元现金" does not occur in "满F元减D元". */
  lemma FulfilDeductTextHasNoEvery(fulfil: nat, deduct: nat, p: int, q: int, runs: seq<string>)
    ensures !MatchesAt(EVERY_FULFIL_DEDUCT, FulfilDeductText(fulfil, deduct), p, q, runs)
  {
    var s := FulfilDeductText(fulfil, deduct);
    if MatchesAt(EVERY_FULFIL_DEDUCT, s, p, q, runs) {
      WellFormedPatterns();
      MatchedTextAnchor(EVERY_FULFIL_DEDUCT, s[p..q], runs);
      assert s[p..q][0] == s[p] == '每';
      FulfilDeductTextChar(fulfil, deduct, p);
      assert false;
    }
  }

  /**
   * For all amounts F and D, the check accepts "满F元减D元" exactly when 2*D >= F.
   */
  lemma FulfilDeductTextIff(fulfil: nat, deduct: nat)
    ensures CheckFulfilDeductPattern(FulfilDeductText(fulfil, deduct)) <==> 2 * deduct >= fulfil
  {
    var f, d := NatToDecimal(fulfil), NatToDecimal(deduct);
    var s := FulfilDeductText(fulfil, deduct);
    MatchesFulfilDeductText(fulfil, deduct);
    DecimalOfNatToDecimal(fulfil);
    DecimalOfNatToDecimal(deduct);
    assert HalfOrMore([f, d]) <==> 2 * deduct >= fulfil;
    CheckFulfilDeductPatternIff(s);
    assert s[0..|s|] == s;
    if 2 * deduct >= fulfil {
      assert MatchesAt(FULFIL_DEDUCT, s, 0, |s|, [f, d]);
    } else {
      forall p, q, runs | MatchesAt(FULFIL_DEDUCT, s, p, q, runs) ensures !HalfOrMore(runs) {
        FulfilDeductTextOccurrence(fulfil, deduct, p, q, runs);
      }
      forall p, q, runs ensures !MatchesAt(EVERY_FULFIL_DEDUCT, s, p, q, runs) {
        FulfilDeductTextHasNoEvery(fulfil, deduct, p, q, runs);
      }
    }
  }

  /** The worked cases: 100 less 50 qualifies, 100 less 30 and 200 less 20 do not. */
  lemma FulfilDeductExamples()
    ensures CheckFulfilDeductPattern(FulfilDeductText(100, 50))
    ensures !CheckFulfilDeductPattern(FulfilDeductText(100, 30))
    ensures !CheckFulfilDeductPattern(FulfilDeductText(200, 20))
  {
    FulfilDeductTextIff(100, 50);
    FulfilDeductTextIff(100, 30);
    FulfilDeductTextIff(200, 20);
  }

  /** The literal stage (main.py:156-160): some configured criterion is in the title. */
  function MatchesCriteria(criterias: seq<string>, title: string): bool {
    exists k :: 0 <= k < |criterias| && Contains(criterias[k], title)
  }

  /** The loop of main.py:157-160: stop at the first criterion that is a substring of the title. */
  method CriteriaFound(criterias: seq<string>, title: string) returns (found: bool)
    ensures found == MatchesCriteria(criterias, title)
  {
    var k := 0;
    while k < |criterias|
      invariant 0 <= k <= |criterias|
      invariant forall j :: 0 <= j < k ==> !Contains(criterias[j], title)
    {
      if Contains(criterias[k], title) {
        return true;
      }
      k := k + 1;
    }
    return false;
  }

  /** The literal stage accepts exactly when some criterion occurs in the title. */
  lemma MatchesCriteriaIff(criterias: seq<string>, title: string)
    ensures MatchesCriteria(criterias, title) <==> exists k, j :: 0 <= k < |criterias| && OccursAt(criterias[k], title, j)
  {
    forall k | 0 <= k < |criterias| {
      ContainsIff(criterias[k], title);
    }
  }

  /**
   * Whether a promotion is recorded as matched (main.py:156-163): a criterion first,
   * the fulfil-deduct check only when no criterion matches.
   */
  function Classify(criterias: seq<string>, title: string): bool {
    if MatchesCriteria(criterias, title) then true else CheckFulfilDeductPattern(title)
  }

  /** A promotion is matched exactly when a criterion occurs in its title or it offers a qualifying deal. */
  lemma ClassifyIff(criterias: seq<string>, title: string)
    ensures Classify(criterias, title)
            <==> (exists k, j :: 0 <= k < |criterias| && OccursAt(criterias[k], title, j))
                 || HasQualifyingOccurrence(FULFIL_DEDUCT, title)
                 || HasQualifyingOccurrence(EVERY_FULFIL_DEDUCT, title)
  {
    MatchesCriteriaIff(criterias, title);
    CheckFulfilDeductPatternIff(title);
  }

  /** The end-to-end case: with the criterion "限时秒杀", a promotion of that title is matched. */
  lemma ClassifyCriterionExample()
    ensures Classify(["限时秒杀"], "限时秒杀")
  {
    var c := ["限时秒杀"];
    ContainsIff(c[0], "限时秒杀");
    assert OccursAt(c[0], "限时秒杀", 0);
  }

  /**
   * Without a criterion in the title, "满F元减D元" is matched exactly when 2*D >= F;
   * so with the criterion "限时秒杀", "满200元减20元" is not matched.
   */
  lemma ClassifyFulfilDeductText(fulfil: nat, deduct: nat)
    ensures Classify(["限时秒杀"], FulfilDeductText(fulfil, deduct)) <==> 2 * deduct >= fulfil
  {
    var c := ["限时秒杀"];
    var t := FulfilDeductText(fulfil, deduct);
    ContainsIff(c[0], t);
    forall j | OccursAt(c[0], t, j) ensures false {
      assert t[j..j + 4][0] == t[j];
      FulfilDeductTextChar(fulfil, deduct, j);
      assert false;
    }
    FulfilDeductTextIff(fulfil, deduct);
  }
}
