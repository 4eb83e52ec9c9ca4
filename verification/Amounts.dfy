/**
 * What the readers of amounts do to a text first: digits of any kind made Latin, the Persian decimal point made plain and
 * the thousands separators taken out; and what grouping changes of it.
 */
module Amounts {
  import opened Options
  import opened DigitGroups

  //#region Characters

  function MapChars(s: string, f: char -> char): (t: string)
    ensures |t| == |s|
  {
    if s == "" then "" else [f(s[0])] + MapChars(s[1..], f)
  }

  function DigitOf(c: char): (d: int)
    requires IsDigit(c)
    ensures 0 <= d <= 9
  {
    if IsLatin(c) then c as int - '0' as int
    else if IsPersian(c) then c as int - 0x6F0
    else c as int - 0x660
  }

  function LatinDigit(d: int): (c: char)
    requires 0 <= d <= 9
    ensures IsLatin(c) && DigitOf(c) == d
  {
    ('0' as int + d) as char
  }

  function LatinChar(c: char): char {
    if IsDigit(c) then LatinDigit(DigitOf(c)) else c
  }

  function DotChar(c: char): char {
    if c == FA_DOT then '.' else c
  }

  function Latin(s: string): string {
    MapChars(s, LatinChar)
  }

  function Dots(s: string): string {
    MapChars(s, DotChar)
  }

  predicate IsSpace(c: char) {
    || '\t' <= c <= '\r' || c == ' ' || c == '\U{00A0}' || c == '\U{1680}' || '\U{2000}' <= c <= '\U{200A}'
    || c == '\U{2028}' || c == '\U{2029}' || c == '\U{202F}' || c == '\U{205F}' || c == '\U{3000}' || c == '\U{FEFF}'
  }

  function Lower(c: char): char {
    if 'A' <= c <= 'Z' then ('a' as int + (c as int - 'A' as int)) as char else c
  }

  //#endregion

  //#region Texts joined

  const AND: string := " و "

  function Join(parts: seq<string>, between: string): string {
    if parts == [] then ""
    else if |parts| == 1 then parts[0]
    else parts[0] + between + Join(parts[1..], between)
  }

  //#endregion

  //#region Separators taken out again

  predicate ThreeDigits(s: string) {
    |s| >= 3 && IsDigit(s[0]) && IsDigit(s[1]) && IsDigit(s[2])
  }

  /** What a reader takes for a separator; a price's reader (fa) also takes the Persian comma for one. */
  predicate IsSepFor(c: char, fa: bool) {
    IsSep(c) || (fa && c == FA_COMMA)
  }

  /** Without the separators that stand before three digits. */
  function Strip(s: string, fa: bool): string {
    if s == "" then ""
    else if IsSepFor(s[0], fa) && ThreeDigits(s[1..]) then Strip(s[1..], fa)
    else [s[0]] + Strip(s[1..], fa)
  }

  lemma {:induction false} StripMapped(s: string, fa: bool, f: char -> char)
    requires forall c :: (IsDigit(f(c)) <==> IsDigit(c)) && (IsSep(f(c)) <==> IsSep(c)) && (f(c) == FA_COMMA <==> c == FA_COMMA)
    ensures Strip(MapChars(s, f), fa) == MapChars(Strip(s, fa), f)
    decreases |s|
  {
    if s != "" {
      StripMapped(s[1..], fa, f);
      MapThree(s[1..], f);
      var kept := Strip(s[1..], fa);
      assert ([s[0]] + kept)[1..] == kept;
      assert MapChars(s, f)[1..] == MapChars(s[1..], f);
    }
  }

  lemma MapThree(s: string, f: char -> char)
    requires forall c :: IsDigit(f(c)) <==> IsDigit(c)
    ensures ThreeDigits(MapChars(s, f)) <==> ThreeDigits(s)
  {
    if |s| >= 3 {
      assert MapChars(s, f)[1..] == MapChars(s[1..], f);
      assert MapChars(s, f)[2..] == MapChars(s[1..], f)[1..] == MapChars(s[1..][1..], f);
      assert s[1..][1..] == s[2..];
    }
  }

  lemma {:induction false} StripRun(run: string, rest: string, fa: bool)
    requires AllDigits(run)
    ensures Strip(run + rest, fa) == run + Strip(rest, fa)
    decreases |run|
  {
    if run == "" {
      assert run + rest == rest;
    } else {
      StripRun(run[1..], rest, fa);
      assert (run + rest)[1..] == run[1..] + rest;
    }
  }

  lemma StripOne(c: char, rest: string, fa: bool)
    requires IsDigit(c)
    ensures Strip([c] + rest, fa) == [c] + Strip(rest, fa)
  {
    assert ([c] + rest)[1..] == rest;
  }

  lemma StripSep(sep: char, rest: string, fa: bool)
    requires IsSep(sep) && ThreeDigits(rest)
    ensures Strip([sep] + rest, fa) == Strip(rest, fa)
  {
    assert ([sep] + rest)[1..] == rest;
  }

  lemma SeparatedHead(run: string, sep: char, rest: string)
    requires run != ""
    ensures Separated(run, sep) + rest
         == [run[0]] + ((if |run| > 1 && (|run| - 1) % 3 == 0 then [sep] else []) + (Separated(run[1..], sep) + rest))
  {
    Glue([run[0]], if |run| > 1 && (|run| - 1) % 3 == 0 then [sep] else [], Separated(run[1..], sep), rest);
  }

  lemma {:induction false} StripSeparated(run: string, sep: char, rest: string, fa: bool)
    requires AllDigits(run) && IsSep(sep)
    ensures Strip(Separated(run, sep) + rest, fa) == run + Strip(rest, fa)
    decreases |run|
  {
    if run == "" {
      assert Separated(run, sep) + rest == rest;
    } else {
      var tail := Separated(run[1..], sep) + rest;
      StripSeparated(run[1..], sep, rest, fa);
      SeparatedHead(run, sep, rest);
      if |run| > 1 && (|run| - 1) % 3 == 0 {
        SeparatedStartsWithThree(run[1..], sep, rest);
        StripSep(sep, tail, fa);
        StripOne(run[0], [sep] + tail, fa);
      } else {
        assert [] + tail == tail;
        StripOne(run[0], tail, fa);
      }
      HeadAndTail(run, Strip(rest, fa));
    }
  }

  lemma HeadAndTail(run: string, rest: string)
    requires run != ""
    ensures [run[0]] + (run[1..] + rest) == run + rest
  {
  }

  lemma SeparatedStartsWithThree(run: string, sep: char, rest: string)
    requires run != "" && |run| % 3 == 0 && AllDigits(run)
    ensures ThreeDigits(Separated(run, sep) + rest)
  {
    SeparatedSplits(run, sep, 3);
    assert Separated(run, sep)[..3] == run[..3];
  }

  /**
   * A Persian comma stands right before a run that groupDigits separates, and the run's first group is shorter than
   * three: the comma is taken for a separator before grouping and for punctuation after it.
   */
  predicate CommaBeforeShortGroup(s: string) {
    s != ""
    && ((s[0] == FA_COMMA && StartsWithDigit(s[1..])
         && var n := RunLength(s[1..]); n % 3 != 0 && Groups(Some(FA_COMMA), s[1..][..n], s[1..][n..]))
        || CommaBeforeShortGroup(s[1..]))
  }

  lemma {:induction false} CommaBehindRun(run: string, rest: string)
    requires AllDigits(run)
    ensures CommaBeforeShortGroup(run + rest) <==> CommaBeforeShortGroup(rest)
    decreases |run|
  {
    if run == "" {
      assert run + rest == rest;
    } else {
      CommaBehindRun(run[1..], rest);
      assert (run + rest)[1..] == run[1..] + rest;
    }
  }

  /** Whether three digits follow is the same before and after grouping, unless a separated run with a short first group follows. */
  lemma ThreeDigitsGrouped(prev: Option<char>, s: string)
    ensures var n := RunLength(s);
            ThreeDigits(GroupFrom(prev, s))
            <==> ThreeDigits(s) && !(StartsWithDigit(s) && n % 3 != 0 && Groups(prev, s[..n], s[n..]))
  {
    GroupKeepsHead(prev, s);
    if StartsWithDigit(s) {
      RunIsMaximal(s);
      var n := RunLength(s);
      GroupKeepsHead(Some(s[n - 1]), s[n..]);
      assert s == s[..n] + s[n..];
      ThreeOfRun(s[..n], s[n..]);
      ThreeOfRewritten(prev, s[..n], s[n..], GroupFrom(Some(s[n - 1]), s[n..]));
    }
  }

  lemma ThreeOfRun(run: string, rest: string)
    requires AllDigits(run) && !StartsWithDigit(rest)
    ensures ThreeDigits(run + rest) <==> |run| >= 3
  {
    if |run| < |run + rest| { assert (run + rest)[|run|] == rest[0]; }
  }

  lemma ThreeOfRewritten(prev: Option<char>, run: string, rest: string, rest': string)
    requires AllDigits(run) && !StartsWithDigit(rest')
    ensures ThreeDigits(Rewritten(prev, run, rest) + rest') <==> |run| >= 3 && !(|run| % 3 != 0 && Groups(prev, run, rest))
  {
    if Groups(prev, run, rest) {
      ThreeOfSeparated(run, Separator(run), rest');
    } else {
      ThreeOfRun(run, rest');
    }
  }

  lemma ThreeOfSeparated(run: string, sep: char, rest: string)
    requires AllDigits(run) && IsSep(sep) && |run| >= 4
    ensures ThreeDigits(Separated(run, sep) + rest) <==> |run| % 3 == 0
  {
    var group, others := FirstGroupOf(run, sep);
    ThreeOfGroup(group, sep, others, Separated(run, sep), rest);
  }

  lemma FirstGroupOf(run: string, sep: char) returns (group: string, others: string)
    requires AllDigits(run) && |run| >= 4
    ensures AllDigits(group) && 1 <= |group| <= 3 && (|group| == 3 <==> |run| % 3 == 0)
    ensures Separated(run, sep) == group + ([sep] + others)
  {
    var k := FirstGroup(|run|);
    SeparatedSplits(run, sep, k);
    group, others := run[..k], Separated(run[k..], sep);
  }

  lemma ThreeOfGroup(group: string, sep: char, others: string, whole: string, rest: string)
    requires AllDigits(group) && IsSep(sep) && 1 <= |group| <= 3 && whole == group + ([sep] + others)
    ensures ThreeDigits(whole + rest) <==> |group| == 3
  {
    assert whole[|group|] == sep;
    assert whole[..|group|] == group;
  }

  /**
   * Grouping never changes the text a weight is read from, and changes the text a price is read from exactly when a
   * Persian comma stands right before a separated run whose first group is short.
   */
  lemma {:induction false} StripGrouped(prev: Option<char>, s: string, fa: bool)
    ensures Strip(GroupFrom(prev, s), fa) == Strip(s, fa) <==> !(fa && CommaBeforeShortGroup(s))
    decreases |s|
  {
    if s == "" {
    } else if IsDigit(s[0]) {
      RunIsMaximal(s);
      var n := RunLength(s);
      var run, rest := s[..n], s[n..];
      var rest' := GroupFrom(Some(s[n - 1]), rest);
      assert s == run + rest;
      StripGrouped(Some(s[n - 1]), rest, fa);
      CommaBehindRun(run, rest);
      StripRun(run, rest, fa);
      if Groups(prev, run, rest) {
        StripSeparated(run, Separator(run), rest', fa);
      } else {
        StripRun(run, rest', fa);
      }
      SameFront(run, Strip(rest', fa), Strip(rest, fa));
    } else {
      StripGroupedOther(prev, s, fa);
    }
  }

  lemma SameFront(a: string, b: string, c: string)
    ensures a + b == a + c <==> b == c
  {
    assert (a + b)[|a|..] == b && (a + c)[|a|..] == c;
  }

  lemma {:induction false} StripGroupedOther(prev: Option<char>, s: string, fa: bool)
    requires s != "" && !IsDigit(s[0])
    ensures Strip(GroupFrom(prev, s), fa) == Strip(s, fa) <==> !(fa && CommaBeforeShortGroup(s))
    decreases |s|, 0
  {
    var c, rest := s[0], s[1..];
    var rest' := GroupFrom(Some(c), rest);
    StripGrouped(Some(c), rest, fa);
    ThreeDigitsGrouped(Some(c), rest);
    assert ([c] + rest')[1..] == rest';
    if IsSepFor(c, fa) && ThreeDigits(rest) && !ThreeDigits(rest') {
      // only a Persian comma lets the run behind it be separated
      assert Strip(GroupFrom(prev, s), fa)[0] == c;
      StripKeepsDigit(rest, fa);
    } else if IsSepFor(c, fa) && ThreeDigits(rest) {
    } else {
      RunIsMaximal(rest);
      SameFront([c], Strip(rest', fa), Strip(rest, fa));
    }
  }

  lemma StripKeepsDigit(s: string, fa: bool)
    requires StartsWithDigit(s)
    ensures StartsWithDigit(Strip(s, fa))
  {
  }

  //#endregion
}
