/**
 * groupDigits and groupedField: thousands separators put into free text. The regular expressions are scanners here: a
 * match of the source's RUN is always a whole maximal run of digits, because a shorter one is followed by a digit.
 */
module DigitGroups {
  import opened Options

  const COMMA: char := ','
  const FA_SEP: char := '\U{066C}'     // the Persian thousands separator
  const FA_COMMA: char := '\U{060C}'   // the Persian comma
  const FA_DOT: char := '\U{066B}'     // the Persian decimal point

  //#region Digits

  predicate IsLatin(c: char) { '0' <= c <= '9' }

  predicate IsPersian(c: char) { '\U{06F0}' <= c <= '\U{06F9}' }

  predicate IsArabic(c: char) { '\U{0660}' <= c <= '\U{0669}' }

  predicate IsDigit(c: char) { IsLatin(c) || IsPersian(c) || IsArabic(c) }

  predicate IsZero(c: char) { c == '0' || c == '\U{06F0}' || c == '\U{0660}' }

  predicate IsSep(c: char) { c == COMMA || c == FA_SEP }

  /** Length of the run of digits s starts with. */
  function RunLength(s: string): (n: nat)
    ensures n <= |s| && (n > 0 <==> StartsWithDigit(s))
  {
    if s == "" || !IsDigit(s[0]) then 0 else 1 + RunLength(s[1..])
  }

  lemma {:induction false} RunIsMaximal(s: string)
    ensures AllDigits(s[..RunLength(s)]) && !StartsWithDigit(s[RunLength(s)..])
    decreases |s|
  {
    if StartsWithDigit(s) {
      RunIsMaximal(s[1..]);
      var n := RunLength(s);
      assert s[n..] == s[1..][n - 1..];
      forall i | 0 <= i < n ensures IsDigit(s[..n][i]) {
        if i > 0 { assert s[i] == s[1..][..n - 1][i - 1]; }
      }
    }
  }

  predicate AllDigits(s: string) {
    forall i :: 0 <= i < |s| ==> IsDigit(s[i])
  }

  predicate StartsWithDigit(s: string) {
    s != "" && IsDigit(s[0])
  }

  //#endregion

  //#region The rewrite

  /** What may not stand before a run: already grouped, a fraction, a date, a time, a phone's plus. */
  predicate Blocks(c: char) {
    IsDigit(c) || c in ['.', COMMA, FA_SEP, FA_DOT, '/', ':', '+']
  }

  /** What may not stand behind one: a slash or colon with a digit. */
  predicate DateFollows(rest: string) {
    |rest| >= 2 && (rest[0] == '/' || rest[0] == ':') && IsDigit(rest[1])
  }

  predicate Groups(prev: Option<char>, run: string, rest: string) {
    |run| >= 4 && !(prev.Some? && Blocks(prev.value)) && !DateFollows(rest) && !IsZero(run[0])
  }

  function Separator(run: string): char {
    if exists i :: 0 <= i < |run| && IsLatin(run[i]) then COMMA else FA_SEP
  }

  /** A separator at every place inside that has a positive multiple of three digits behind it. */
  function Separated(run: string, sep: char): string {
    if run == "" then ""
    else [run[0]] + (if |run| > 1 && (|run| - 1) % 3 == 0 then [sep] else []) + Separated(run[1..], sep)
  }

  function Rewritten(prev: Option<char>, run: string, rest: string): string {
    if Groups(prev, run, rest) then Separated(run, Separator(run)) else run
  }

  /** The rest of the text, with prev the character before it. */
  function GroupFrom(prev: Option<char>, s: string): string
    decreases |s|
  {
    if s == "" then ""
    else if IsDigit(s[0]) then
      var n := RunLength(s);
      Rewritten(prev, s[..n], s[n..]) + GroupFrom(Some(s[n - 1]), s[n..])
    else [s[0]] + GroupFrom(Some(s[0]), s[1..])
  }

  function GroupDigits(text: string): string {
    GroupFrom(None, text)
  }

  /** Left as it is when the separators would push it past its column. */
  function GroupedField(value: string, max: nat): string {
    if |GroupDigits(value)| <= max then GroupDigits(value) else value
  }

  //#endregion

  //#region Runs put together

  lemma {:induction false} RunOf(run: string, rest: string)
    requires AllDigits(run) && !StartsWithDigit(rest)
    ensures RunLength(run + rest) == |run|
    decreases |run|
  {
    if run == "" {
      assert run + rest == rest;
    } else {
      RunOf(run[1..], rest);
      assert (run + rest)[1..] == run[1..] + rest;
    }
  }

  lemma GroupRun(prev: Option<char>, run: string, rest: string)
    requires run != "" && AllDigits(run) && !StartsWithDigit(rest)
    ensures GroupFrom(prev, run + rest) == Rewritten(prev, run, rest) + GroupFrom(Some(run[|run| - 1]), rest)
  {
    RunOf(run, rest);
    var s := run + rest;
    assert s[..|run|] == run && s[|run|..] == rest && IsDigit(s[0]);
  }

  lemma GroupOther(prev: Option<char>, c: char, rest: string)
    requires !IsDigit(c)
    ensures GroupFrom(prev, [c] + rest) == [c] + GroupFrom(Some(c), rest)
  {
    assert ([c] + rest)[1..] == rest;
  }

  /** The first group of a separated run, and the others. */
  lemma {:induction false} SeparatedSplits(run: string, sep: char, k: nat)
    requires 1 <= k <= 3 && k <= |run| && (|run| - k) % 3 == 0
    ensures Separated(run, sep) == run[..k] + (if |run| > k then [sep] + Separated(run[k..], sep) else "")
    decreases k
  {
    if k == 1 {
      assert run[..1] == [run[0]];
      if |run| == 1 { assert run[1..] == ""; }
    } else {
      SeparatedSplits(run[1..], sep, k - 1);
      assert run[1..][..k - 1] == run[1..k] && run[1..][k - 1..] == run[k..];
      assert run[..k] == [run[0]] + run[1..k];
    }
  }

  function FirstGroup(n: nat): nat
    requires n > 0
  {
    (n - 1) % 3 + 1
  }

  lemma {:induction false} SeparatedShape(run: string, sep: char)
    ensures run != "" ==> Separated(run, sep) != "" && Separated(run, sep)[0] == run[0]
    ensures run != "" ==> Separated(run, sep)[|Separated(run, sep)| - 1] == run[|run| - 1]
    decreases |run|
  {
    if |run| > 1 {
      SeparatedShape(run[1..], sep);
    }
  }

  /** Rewriting keeps the first character, so it never changes what a neighbouring run sees. */
  lemma GroupKeepsHead(prev: Option<char>, s: string)
    ensures GroupFrom(prev, s) == "" <==> s == ""
    ensures s != "" ==> GroupFrom(prev, s)[0] == s[0]
  {
    if s != "" && IsDigit(s[0]) {
      var n := RunLength(s);
      SeparatedShape(s[..n], Separator(s[..n]));
    }
  }

  lemma GroupKeepsDate(prev: Option<char>, rest: string)
    requires !StartsWithDigit(rest)
    ensures DateFollows(GroupFrom(prev, rest)) <==> DateFollows(rest)
  {
    if rest != "" {
      GroupOther(prev, rest[0], rest[1..]);
      assert rest == [rest[0]] + rest[1..];
      GroupKeepsHead(Some(rest[0]), rest[1..]);
    }
  }

  //#endregion

  //#region Applying it twice changes nothing

  /** A first group of up to three digits and a separator are left as they are. */
  lemma GroupHeadAndSep(prev: Option<char>, head: string, sep: char, rest: string)
    requires 1 <= |head| <= 3 && AllDigits(head) && IsSep(sep)
    ensures GroupFrom(prev, head + ([sep] + rest)) == head + ([sep] + GroupFrom(Some(sep), rest))
  {
    GroupRun(prev, head, [sep] + rest);
    GroupOther(Some(head[|head| - 1]), sep, rest);
  }

  lemma {:induction false} SeparatedIsStable(prev: Option<char>, run: string, sep: char, rest: string)
    requires run != "" && AllDigits(run) && IsSep(sep) && !StartsWithDigit(rest)
    ensures GroupFrom(prev, Separated(run, sep) + rest) == Separated(run, sep) + GroupFrom(Some(run[|run| - 1]), rest)
    decreases |run|
  {
    var k := FirstGroup(|run|);
    SeparatedSplits(run, sep, k);
    if k == |run| {
      assert run[..k] == run && Separated(run, sep) == run;
      GroupRun(prev, run, rest);
    } else {
      var tail := Separated(run[k..], sep);
      var end := GroupFrom(Some(run[|run| - 1]), rest);
      SeparatedIsStable(Some(sep), run[k..], sep, rest);
      GroupHeadAndSep(prev, run[..k], sep, tail + rest);
      Glue(run[..k], [sep], tail, rest);
      Glue(run[..k], [sep], tail, end);
    }
  }

  lemma Glue(a: string, b: string, c: string, d: string)
    ensures a + (b + c) + d == a + (b + (c + d))
    ensures a + b + c + d == a + (b + (c + d))
  {
  }

  lemma {:induction false} GroupTwice(prev: Option<char>, s: string)
    ensures GroupFrom(prev, GroupFrom(prev, s)) == GroupFrom(prev, s)
    decreases |s|
  {
    if s == "" {
    } else if IsDigit(s[0]) {
      var n := RunLength(s);
      var run, rest := s[..n], s[n..];
      var last := Some(s[n - 1]);
      var rest' := GroupFrom(last, rest);
      RunIsMaximal(s);
      GroupTwice(last, rest);
      GroupKeepsHead(last, rest);
      GroupKeepsDate(last, rest);
      if Groups(prev, run, rest) {
        SeparatedIsStable(prev, run, Separator(run), rest');
      } else {
        GroupRun(prev, run, rest');
      }
    } else {
      GroupTwice(Some(s[0]), s[1..]);
      GroupOther(prev, s[0], GroupFrom(Some(s[0]), s[1..]));
    }
  }

  lemma GroupingIsIdempotent(text: string)
    ensures GroupDigits(GroupDigits(text)) == GroupDigits(text)
  {
    GroupTwice(None, text);
  }

  //#endregion

  //#region It only inserts separators inside runs

  /**
   * t is s with separators put in, each between two digits that stand side by side in s; before: whether the character
   * of s just before is a digit.
   */
  predicate Inserted(before: bool, s: string, t: string)
    decreases |t|
  {
    if t == "" then s == ""
    else
      || (s != "" && t[0] == s[0] && Inserted(IsDigit(s[0]), s[1..], t[1..]))
      || (before && s != "" && IsSep(t[0]) && |t| > 1 && t[1] == s[0] && IsDigit(s[0]) && Inserted(true, s[1..], t[2..]))
  }

  lemma {:induction false} InsertedNothing(before: bool, run: string, rest: string, rest': string)
    requires AllDigits(run) && Inserted(if run == "" then before else true, rest, rest')
    ensures Inserted(before, run + rest, run + rest')
    decreases |run|
  {
    if run == "" {
      assert run + rest == rest && run + rest' == rest';
    } else {
      InsertedNothing(true, run[1..], rest, rest');
      assert (run + rest)[1..] == run[1..] + rest && (run + rest')[1..] == run[1..] + rest';
    }
  }

  lemma {:induction false} InsertedInRun(before: bool, run: string, sep: char, rest: string, rest': string)
    requires run != "" && AllDigits(run) && IsSep(sep) && Inserted(true, rest, rest')
    ensures Inserted(before, run + rest, Separated(run, sep) + rest')
    decreases |run|
  {
    if |run| == 1 {
      assert run == [run[0]] && Separated(run, sep) == run;
      InsertedOne(before, run[0], rest, rest');
    } else {
      var s, t := run[1..] + rest, Separated(run[1..], sep) + rest';
      SeparatedShape(run[1..], sep);
      InsertedInRun(true, run[1..], sep, rest, rest');
      assert run + rest == [run[0]] + s;
      if (|run| - 1) % 3 == 0 {
        Glue([run[0]], [sep], Separated(run[1..], sep), rest');
        SepBefore(s, sep, t);
        InsertedOne(before, run[0], s, [sep] + t);
      } else {
        assert Separated(run, sep) == [run[0]] + Separated(run[1..], sep);
        assert Separated(run, sep) + rest' == [run[0]] + t;
        InsertedOne(before, run[0], s, t);
      }
    }
  }

  lemma InsertedOne(before: bool, c: char, s: string, t: string)
    requires Inserted(IsDigit(c), s, t)
    ensures Inserted(before, [c] + s, [c] + t)
  {
    assert ([c] + s)[1..] == s && ([c] + t)[1..] == t;
  }

  lemma SepBefore(s: string, sep: char, t: string)
    requires s != "" && t != "" && IsDigit(s[0]) && t[0] == s[0] && IsSep(sep) && Inserted(true, s, t)
    ensures Inserted(true, s, [sep] + t)
  {
    assert ([sep] + t)[1] == t[0] && ([sep] + t)[2..] == t[1..];
    assert !IsSep(t[0]);
  }

  lemma {:induction false} GroupInserts(prev: Option<char>, s: string, before: bool)
    ensures Inserted(before, s, GroupFrom(prev, s))
    decreases |s|
  {
    if s == "" {
    } else if IsDigit(s[0]) {
      var n := RunLength(s);
      var last := Some(s[n - 1]);
      RunIsMaximal(s);
      GroupInserts(last, s[n..], true);
      assert s == s[..n] + s[n..];
      if Groups(prev, s[..n], s[n..]) {
        InsertedInRun(before, s[..n], Separator(s[..n]), s[n..], GroupFrom(last, s[n..]));
      } else {
        InsertedNothing(before, s[..n], s[n..], GroupFrom(last, s[n..]));
      }
    } else {
      GroupInserts(Some(s[0]), s[1..], false);
      assert ([s[0]] + GroupFrom(Some(s[0]), s[1..]))[1..] == GroupFrom(Some(s[0]), s[1..]);
    }
  }

  /** t without the characters marked. */
  function Erase(t: string, marked: seq<bool>): string
    requires |marked| == |t|
  {
    if t == "" then "" else (if marked[0] then "" else [t[0]]) + Erase(t[1..], marked[1..])
  }

  lemma {:induction false} InsertedCanBeErased(before: bool, s: string, t: string) returns (marked: seq<bool>)
    requires Inserted(before, s, t)
    ensures |marked| == |t| && Erase(t, marked) == s
    ensures forall i :: 0 <= i < |t| && marked[i] ==> IsSep(t[i])
    decreases |t|
  {
    if t == "" { return []; }
    if s != "" && t[0] == s[0] && Inserted(IsDigit(s[0]), s[1..], t[1..]) {
      var rest := InsertedCanBeErased(IsDigit(s[0]), s[1..], t[1..]);
      marked := [false] + rest;
      assert s == [s[0]] + s[1..] && marked[1..] == rest;
    } else {
      var rest := InsertedCanBeErased(true, s[1..], t[2..]);
      marked := [true, false] + rest;
      assert marked[1..] == [false] + rest && marked[1..][1..] == rest && t[1..][1..] == t[2..];
      assert s == [s[0]] + s[1..];
    }
  }

  /**
   * Grouping only inserts separators, each between two digits that stood side by side, so that erasing the inserted
   * ones gives the text back.
   */
  lemma GroupingOnlyInserts(text: string) returns (marked: seq<bool>)
    ensures Inserted(false, text, GroupDigits(text))
    ensures |marked| == |GroupDigits(text)| && Erase(GroupDigits(text), marked) == text
    ensures forall i :: 0 <= i < |marked| && marked[i] ==> IsSep(GroupDigits(text)[i])
  {
    GroupInserts(None, text, false);
    marked := InsertedCanBeErased(false, text, GroupDigits(text));
  }

  //#endregion

  //#region Where the separators stand

  /** Where the run of digits that ends before place k starts. */
  function RunStart(s: string, k: nat): (a: nat)
    requires k <= |s|
    ensures a <= k
  {
    if k == 0 || !IsDigit(s[k - 1]) then k else RunStart(s, k - 1)
  }

  /** Where the run of digits that starts at place k ends. */
  function RunEnd(s: string, k: nat): (b: nat)
    requires k <= |s|
    ensures k <= b <= |s|
    decreases |s| - k
  {
    if k == |s| || !IsDigit(s[k]) then k else RunEnd(s, k + 1)
  }

  /**
   * Place k is inside a run of four digits or more, a multiple of three before its end. The run does not start with a zero,
   * stands behind none of . , ٬ ٫ / : + and has no slash or colon with a digit behind it.
   */
  predicate IsThousands(s: string, k: nat)
    requires k <= |s|
  {
    var a, b := RunStart(s, k), RunEnd(s, k);
    && a < k < b && b - a >= 4 && (b - k) % 3 == 0
    && s[a] !in ['0', '۰', '٠'] && (a > 0 ==> s[a - 1] !in ['.', ',', '٬', '٫', '/', ':', '+'])
    && (b + 1 < |s| && s[b] in ['/', ':'] ==> !IsDigit(s[b + 1]))
  }

  /** A comma when the run has a Latin digit, else the Persian separator. */
  function SeparatorAt(s: string, k: nat): string
    requires k <= |s|
  {
    if !IsThousands(s, k) then ""
    else if exists i :: RunStart(s, k) <= i < RunEnd(s, k) && '0' <= s[i] <= '9' then [','] else ['٬']
  }

  /** The text from place k on with its separators, place by place. */
  function WithSeparators(s: string, k: nat): string
    requires k <= |s|
    decreases |s| - k
  {
    if k == |s| then "" else SeparatorAt(s, k) + ([s[k]] + WithSeparators(s, k + 1))
  }

  predicate IsRun(s: string, a: nat, b: nat) {
    && a < b <= |s| && AllDigits(s[a..b]) && (a > 0 ==> !IsDigit(s[a - 1])) && (b < |s| ==> !IsDigit(s[b]))
  }

  lemma DigitIn(s: string, a: nat, b: nat, k: nat)
    requires a <= k < b <= |s| && AllDigits(s[a..b])
    ensures IsDigit(s[k])
  {
    assert s[a..b][k - a] == s[k];
  }

  lemma {:induction false} RunStartsAt(s: string, a: nat, b: nat, k: nat)
    requires IsRun(s, a, b) && a <= k <= b
    ensures RunStart(s, k) == a
  {
    if k > a {
      DigitIn(s, a, b, k - 1);
      RunStartsAt(s, a, b, k - 1);
    }
  }

  lemma {:induction false} RunEndsAt(s: string, a: nat, b: nat, k: nat)
    requires IsRun(s, a, b) && a <= k <= b
    ensures RunEnd(s, k) == b
    decreases b - k
  {
    if k < b {
      DigitIn(s, a, b, k);
      RunEndsAt(s, a, b, k + 1);
    }
  }

  function Before(s: string, a: nat): Option<char>
    requires a <= |s|
  {
    if a == 0 then None else Some(s[a - 1])
  }

  lemma SeparatorIn(s: string, a: nat, b: nat, k: nat)
    requires IsRun(s, a, b) && a <= k <= b
    ensures SeparatorAt(s, k) == if a < k < b && (b - k) % 3 == 0 && Groups(Before(s, a), s[a..b], s[b..]) then [Separator(s[a..b])] else ""
  {
    RunStartsAt(s, a, b, k);
    RunEndsAt(s, a, b, k);
    assert s[a..b][0] == s[a];
    assert (exists i :: a <= i < b && '0' <= s[i] <= '9') <==> exists i :: 0 <= i < b - a && IsLatin(s[a..b][i]) by {
      if i :| a <= i < b && '0' <= s[i] <= '9' { assert IsLatin(s[a..b][i - a]); }
    }
    if a > 0 && !Blocks(s[a - 1]) { assert s[a - 1] !in ['.', ',', '٬', '٫', '/', ':', '+']; }
  }

  /** A run from one of its places on. */
  function Parted(run: string, grouped: bool, sep: char): string {
    if grouped then Separated(run, sep) else run
  }

  lemma PartedHead(c: char, run: string, grouped: bool, sep: char, rest: string)
    ensures Parted([c] + run, grouped, sep) + rest
         == [c] + ((if run != "" then MarkAt(|run|, grouped, sep) else "") + (Parted(run, grouped, sep) + rest))
  {
    assert ([c] + run)[1..] == run && ([c] + run)[0] == c;
    if grouped {
      var mark := if run != "" && |run| % 3 == 0 then [sep] else [];
      assert [c] + mark + Separated(run, sep) + rest == [c] + (mark + (Separated(run, sep) + rest));
    }
  }

  function MarkAt(left: nat, grouped: bool, sep: char): string {
    if grouped && left % 3 == 0 then [sep] else ""
  }

  lemma {:induction false} RunPlaces(s: string, b: nat, k: nat, grouped: bool, sep: char)
    requires k < b <= |s| && forall j :: k < j < b ==> SeparatorAt(s, j) == MarkAt(b - j, grouped, sep)
    ensures Parted(s[k..b], grouped, sep) + WithSeparators(s, b) == [s[k]] + WithSeparators(s, k + 1)
    decreases b - k
  {
    CutHead(s, k, b);
    PartedHead(s[k], s[k + 1..b], grouped, sep, WithSeparators(s, b));
    if k + 1 < b {
      RunPlaces(s, b, k + 1, grouped, sep);
      assert WithSeparators(s, k + 1) == MarkAt(b - (k + 1), grouped, sep) + ([s[k + 1]] + WithSeparators(s, k + 2));
    } else {
      LastPlace(grouped, sep, WithSeparators(s, b));
    }
  }

  lemma LastPlace(grouped: bool, sep: char, rest: string)
    ensures "" + (Parted("", grouped, sep) + rest) == rest
  {
  }

  lemma CutHead(s: string, k: nat, b: nat)
    requires k < b <= |s|
    ensures s[k..b] == [s[k]] + s[k + 1..b] && |s[k + 1..b]| == b - k - 1
  {
  }

  lemma {:induction false} PlacesFrom(s: string, k: nat)
    requires k <= |s| && (0 < k < |s| ==> !(IsDigit(s[k - 1]) && IsDigit(s[k])))
    ensures GroupFrom(Before(s, k), s[k..]) == WithSeparators(s, k)
    decreases |s| - k
  {
    if k == |s| {
    } else if IsDigit(s[k]) {
      RunIsMaximal(s[k..]);
      var n := RunLength(s[k..]);
      var b := k + n;
      assert s[k..][..n] == s[k..b] && s[k..][n..] == s[b..] && s[k..][n - 1] == s[b - 1];
      DigitIn(s, k, b, b - 1);
      PlacesFrom(s, b);
      forall j | k < j < b ensures SeparatorAt(s, j) == MarkAt(b - j, Groups(Before(s, k), s[k..b], s[b..]), Separator(s[k..b])) {
        SeparatorIn(s, k, b, j);
      }
      RunPlaces(s, b, k, Groups(Before(s, k), s[k..b], s[b..]), Separator(s[k..b]));
      SeparatorIn(s, k, b, k);
    } else {
      PlacesFrom(s, k + 1);
      assert s[k..][1..] == s[k + 1..] && SeparatorAt(s, k) == "";
    }
  }

  /** Grouping puts a separator at exactly the places SeparatorAt says, in every text. */
  lemma GroupedAtThousands(text: string)
    ensures GroupDigits(text) == WithSeparators(text, 0)
  {
    PlacesFrom(text, 0);
    assert text[0..] == text;
  }

  /** A field never outgrows its column by grouping, and is grouped whenever that fits. */
  lemma GroupedFieldFits(value: string, max: nat)
    ensures |value| <= max ==> |GroupedField(value, max)| <= max
    ensures GroupedField(value, max) == if |WithSeparators(value, 0)| <= max then WithSeparators(value, 0) else value
  {
    GroupedAtThousands(value);
  }

  //#endregion
}
