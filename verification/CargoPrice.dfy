/**
 * parseCargoPrice: the amount and currency of a freight written as free text. The regular expressions are scanners; a
 * typed decimal is a real, exact, and the amount is rounded to a whole number.
 */
module CargoPrice {
  import opened Options
  import opened DigitGroups
  import opened Amounts

  const MIN_BARE_TOMANS: real := 1_000_000.0

  datatype Currency = Toman | Dollar | Euro | Dirham | Lira

  datatype Price = Price(amount: int, currency: Currency)

  //#region Patterns

  predicate At(s: string, p: string) {
    p == "" || (s != "" && Lower(s[0]) == p[0] && At(s[1..], p[1..]))
  }

  predicate AfterSpaces(s: string, p: string) {
    At(s, p) || (s != "" && IsSpace(s[0]) && AfterSpaces(s[1..], p))
  }

  /** s starts with a, any white space and b, whatever the case of Latin letters. */
  predicate MatchesAt(s: string, a: string, b: string) {
    if a == "" then AfterSpaces(s, b) else s != "" && Lower(s[0]) == a[0] && MatchesAt(s[1..], a[1..], b)
  }

  predicate Matches(s: string, a: string, b: string) {
    MatchesAt(s, a, b) || (s != "" && Matches(s[1..], a, b))
  }

  predicate Contains(s: string, p: string) {
    Matches(s, p, "")
  }

  /** A letter, digit or underscore of ASCII: all that a word boundary knows of. */
  predicate IsWordChar(c: char) {
    IsLatin(c) || 'a' <= Lower(c) <= 'z' || c == '_'
  }

  predicate WordFollows(s: string) {
    s != "" && IsWordChar(s[0])
  }

  /** The abbreviation of million: its letter is no word character, so the boundary is one with a word character behind. */
  predicate HasM(s: string) {
    s != "" && ((s[0] == 'م' && WordFollows(s[1..])) || HasM(s[1..]))
  }

  /** Such a letter, place by place. */
  predicate HasMAt(s: string, i: nat) {
    i < |s| - 1 && s[i] == 'م' && IsWordChar(s[i + 1])
  }

  lemma {:induction false} HasMExactly(s: string)
    ensures HasM(s) <==> exists i: nat :: HasMAt(s, i)
  {
    if s != "" {
      HasMExactly(s[1..]);
      if i: nat :| HasMAt(s[1..], i) { assert HasMAt(s, i + 1); }
      if i: nat :| HasMAt(s, i) {
        if i > 0 { assert HasMAt(s[1..], i - 1); }
      }
      if s[0] == 'م' && WordFollows(s[1..]) { assert HasMAt(s, 0); }
    }
  }

  predicate HasK(s: string) {
    s != "" && ((Lower(s[0]) == 'k' && !WordFollows(s[1..])) || HasK(s[1..]))
  }

  //#endregion

  //#region Figures

  function Pow10(n: nat): (p: nat)
    ensures p > 0
  {
    if n == 0 then 1 else 10 * Pow10(n - 1)
  }

  function NatOf(s: string): nat
    requires AllDigits(s)
  {
    if s == "" then 0 else 10 * NatOf(s[..|s| - 1]) + DigitOf(s[|s| - 1])
  }

  function Decimal(n: nat): (s: string)
    ensures s != ""
  {
    if n < 10 then [LatinDigit(n)] else Decimal(n / 10) + [LatinDigit(n % 10)]
  }

  lemma {:induction false} DecimalReadsBack(n: nat)
    ensures forall i :: 0 <= i < |Decimal(n)| ==> IsLatin(Decimal(n)[i])
    ensures AllDigits(Decimal(n)) && NatOf(Decimal(n)) == n
    ensures n > 0 ==> Decimal(n)[0] != '0'
    decreases n
  {
    if n < 10 {
      assert Decimal(n)[..0] == "";
    } else {
      DecimalReadsBack(n / 10);
      assert Decimal(n)[..|Decimal(n)| - 1] == Decimal(n / 10);
    }
  }

  /** The digits of the first number of a text, and the text behind it. */
  datatype Figure = Figure(whole: string, fraction: string, after: string)

  predicate FigureValid(f: Figure) {
    AllDigits(f.whole) && AllDigits(f.fraction)
  }

  function FirstFigure(s: string): (r: Option<Figure>)
    ensures r.Some? ==> FigureValid(r.value)
    decreases |s|
  {
    if s == "" then None
    else if !IsDigit(s[0]) then FirstFigure(s[1..])
    else
      RunIsMaximal(s);
      var n := RunLength(s);
      var rest := s[n..];
      if rest != "" && rest[0] == '.' && StartsWithDigit(rest[1..]) then
        RunIsMaximal(rest[1..]);
        var m := RunLength(rest[1..]);
        Some(Figure(s[..n], rest[1..][..m], rest[1..][m..]))
      else
        Some(Figure(s[..n], "", rest))
  }

  function FigureValue(f: Figure): real
    requires FigureValid(f)
  {
    NatOf(f.whole) as real + NatOf(f.fraction) as real / Pow10(|f.fraction|) as real
  }

  function Round(x: real): int {
    (x + 0.5).Floor
  }

  //#endregion

  //#region Number words

  function WordValue(word: string): Option<nat> {
    match word
    case "یک" => Some(1) case "دو" => Some(2) case "سه" => Some(3) case "چهار" => Some(4) case "پنج" => Some(5)
    case "شش" => Some(6) case "هفت" => Some(7) case "هشت" => Some(8) case "نه" => Some(9) case "ده" => Some(10)
    case "یازده" => Some(11) case "دوازده" => Some(12) case "سیزده" => Some(13) case "چهارده" => Some(14)
    case "پانزده" => Some(15) case "شانزده" => Some(16) case "هفده" => Some(17) case "هجده" => Some(18)
    case "نوزده" => Some(19)
    case "بیست" => Some(20) case "سی" => Some(30) case "چهل" => Some(40) case "پنجاه" => Some(50)
    case "شصت" => Some(60) case "هفتاد" => Some(70) case "هشتاد" => Some(80) case "نود" => Some(90)
    case "صد" => Some(100) case "یکصد" => Some(100) case "دویست" => Some(200) case "سیصد" => Some(300)
    case "چهارصد" => Some(400) case "پانصد" => Some(500) case "ششصد" => Some(600) case "هفتصد" => Some(700)
    case "هشتصد" => Some(800) case "نهصد" => Some(900)
    case _ => None
  }

  function WordLength(s: string): (n: nat)
    ensures n <= |s| && (n > 0 <==> s != "" && !IsSpace(s[0]))
  {
    if s == "" || IsSpace(s[0]) then 0 else 1 + WordLength(s[1..])
  }

  function WordsOf(s: string): seq<string>
    decreases |s|
  {
    if s == "" then []
    else if IsSpace(s[0]) then WordsOf(s[1..])
    else [s[..WordLength(s)]] + WordsOf(s[WordLength(s)..])
  }

  function Sum(words: seq<string>): nat {
    if words == [] then 0 else WordValue(words[0]).GetOr(0) + Sum(words[1..])
  }

  predicate AnyNumber(words: seq<string>) {
    exists i :: 0 <= i < |words| && WordValue(words[i]).Some?
  }

  /** The sum of the number words of a text. The joining word has no value, so that it needs no rule of its own. */
  function WordsValue(text: string): Option<nat> {
    if AnyNumber(WordsOf(text)) then Some(Sum(WordsOf(text))) else None
  }

  //#endregion

  //#region The reader

  function TrimStart(s: string): string {
    if s != "" && IsSpace(s[0]) then TrimStart(s[1..]) else s
  }

  function TrimEnd(s: string): string {
    if s != "" && IsSpace(s[|s| - 1]) then TrimEnd(s[..|s| - 1]) else s
  }

  /** The text a price is read from: Latin digits, no separators before three digits, a plain decimal point. */
  function PriceText(raw: string): string {
    TrimEnd(TrimStart(Dots(Strip(Latin(raw), true))))
  }

  function CurrencyOf(text: string): Currency {
    if Contains(text, "دلار") || Contains(text, "$") || Contains(text, "usd") then Dollar
    else if Contains(text, "یورو") || Contains(text, "€") || Contains(text, "eur") then Euro
    else if Contains(text, "درهم") || Contains(text, "aed") then Dirham
    else if Contains(text, "لیر") || Contains(text, "try") then Lira
    else Toman
  }

  function ScaleOf(tail: string): (scale: int)
    ensures scale >= 1
  {
    if Contains(tail, "میلیارد") || Contains(tail, "ملیارد") then 1_000_000_000
    else if Contains(tail, "میلیون") || Contains(tail, "ملیون") || HasM(tail) then 1_000_000
    else if Contains(tail, "هزار") || HasK(tail) then 1000
    else 1
  }

  /** The price a figure makes, with the unit, scale and currency words found beside it. */
  function PriceOf(value: real, currency: Currency, scale: int, tomans: bool, rials: bool): Option<Price> {
    if value <= 0.0 then None
    else if currency == Toman && !tomans && !rials && scale == 1 && value < MIN_BARE_TOMANS then None
    else
      var amount := value * scale as real;
      Some(Price(Round(if currency == Toman && rials then amount / 10.0 else amount), currency))
  }

  function ReadPrice(text: string): Option<Price> {
    var figure := FirstFigure(text);
    var value := if figure.Some? then FigureValue(figure.value) else WordsValue(text).GetOr(0) as real;
    var scale := ScaleOf(if figure.Some? then figure.value.after else text);
    PriceOf(value, CurrencyOf(text), scale, Contains(text, "تومان"), Contains(text, "ریال"))
  }

  function ParseCargoPrice(raw: string): Option<Price> {
    if raw == "" then None else ReadPrice(PriceText(raw))
  }

  //#endregion

  //#region What grouping changes

  lemma PriceTextUpToDots(raw: string)
    ensures Dots(Strip(Latin(raw), true)) == MapChars(MapChars(Strip(raw, true), LatinChar), DotChar)
  {
    StripMapped(raw, true, LatinChar);
  }

  /** Grouping a price never changes what is read, unless a Persian comma stands before a run with a short first group. */
  lemma GroupedPriceReadsTheSame(raw: string)
    requires !CommaBeforeShortGroup(raw)
    ensures ParseCargoPrice(GroupDigits(raw)) == ParseCargoPrice(raw)
  {
    StripGrouped(None, raw, true);
    PriceTextUpToDots(raw);
    PriceTextUpToDots(GroupDigits(raw));
    GroupKeepsHead(None, raw);
  }

  predicate CommaBeforeDigit(s: string) {
    exists i :: 0 <= i < |s| - 1 && s[i] == FA_COMMA && IsDigit(s[i + 1])
  }

  lemma {:induction false} OnlyCommaBeforeDigit(s: string)
    requires CommaBeforeShortGroup(s)
    ensures CommaBeforeDigit(s)
    decreases |s|
  {
    if s[0] == FA_COMMA && StartsWithDigit(s[1..]) {
      assert s[0] == FA_COMMA && IsDigit(s[1]);
    } else {
      OnlyCommaBeforeDigit(s[1..]);
      var i :| 0 <= i < |s[1..]| - 1 && s[1..][i] == FA_COMMA && IsDigit(s[1..][i + 1]);
      assert s[i + 1] == FA_COMMA && IsDigit(s[i + 1 + 1]);
    }
  }

  predicate DigitsAndCommas(s: string) {
    forall i :: 0 <= i < |s| ==> IsLatin(s[i]) || s[i] == FA_COMMA
  }

  lemma Alone(x: string, rest: string)
    requires x != "" && AllDigits(x) && rest == "" && CurrencyOf(x) == Toman && ScaleOf(rest) == 1
    ensures ReadPrice(x) == PriceOf(NatOf(x) as real, Toman, 1, Contains(x, "تومان"), Contains(x, "ریال"))
  {
    assert x == x + rest;
    FigureOnly(x, rest, Toman, 1);
  }

  /** A text that starts with a whole number. */
  lemma FigureOnly(x: string, rest: string, currency: Currency, scale: int)
    requires x != "" && AllDigits(x) && (rest == "" || (!IsDigit(rest[0]) && rest[0] != '.'))
    requires CurrencyOf(x + rest) == currency && ScaleOf(rest) == scale
    ensures ReadPrice(x + rest)
         == PriceOf(NatOf(x) as real, currency, scale, Contains(x + rest, "تومان"), Contains(x + rest, "ریال"))
  {
    FigureFirst(x, rest);
  }

  //#endregion

  //#region Digits read back

  predicate AllLatin(s: string) {
    forall i :: 0 <= i < |s| ==> IsLatin(s[i])
  }

  lemma {:induction false} MapFixed(s: string, f: char -> char)
    requires forall i :: 0 <= i < |s| ==> f(s[i]) == s[i]
    ensures MapChars(s, f) == s
  {
    if s != "" {
      MapFixed(s[1..], f);
    }
  }

  /** What is left of a text that strips to t, when t has nothing else for the reader to rewrite. */
  lemma PlainPriceText(s: string, t: string)
    requires Strip(s, true) == t && t != "" && !IsSpace(t[0]) && !IsSpace(t[|t| - 1])
    requires forall i :: 0 <= i < |t| ==> LatinChar(t[i]) == t[i] && DotChar(t[i]) == t[i]
    ensures PriceText(s) == t
  {
    PriceTextUpToDots(s);
    MapFixed(t, LatinChar);
    MapFixed(t, DotChar);
  }

  lemma FigureFirst(x: string, rest: string)
    requires x != "" && AllDigits(x) && (rest == "" || (!IsDigit(rest[0]) && rest[0] != '.'))
    ensures FirstFigure(x + rest) == Some(Figure(x, "", rest))
    ensures FigureValue(Figure(x, "", rest)) == NatOf(x) as real
  {
    RunOf(x, rest);
    assert (x + rest)[..|x|] == x && (x + rest)[|x|..] == rest;
    assert NatOf("") == 0 && Pow10(0) == 1;
  }

  lemma {:induction false} NatOfBound(x: string, n: nat)
    requires AllDigits(x) && |x| <= n
    ensures NatOf(x) < Pow10(n)
    decreases n
  {
    if x != "" {
      NatOfBound(x[..|x| - 1], n - 1);
    }
  }

  lemma {:induction false} MatchNeeds(s: string, a: string, b: string, c: char)
    requires c in a && forall i :: 0 <= i < |s| ==> Lower(s[i]) != c
    ensures !MatchesAt(s, a, b)
  {
    if s != "" && Lower(s[0]) == a[0] {
      assert a == [a[0]] + a[1..];
      MatchNeeds(s[1..], a[1..], b, c);
    }
  }

  /** A pattern with a character the text has not is not in it. */
  lemma {:induction false} MissingFirst(s: string, a: string, b: string, c: char)
    requires c in a && forall i :: 0 <= i < |s| ==> Lower(s[i]) != c
    ensures !Matches(s, a, b)
  {
    MatchNeeds(s, a, b, c);
    if s != "" {
      MissingFirst(s[1..], a, b, c);
    }
  }

  lemma Missing(s: string, p: string, c: char)
    requires c in p && forall i :: 0 <= i < |s| ==> Lower(s[i]) != c
    ensures !Contains(s, p)
  {
    MissingFirst(s, p, "", c);
  }

  lemma {:induction false} NoHasK(s: string)
    requires Lacks(s, 'k')
    ensures !HasK(s)
  {
    if s != "" {
      NoHasK(s[1..]);
    }
  }

  predicate Lacks(s: string, c: char) {
    forall i :: 0 <= i < |s| ==> Lower(s[i]) != c
  }

  lemma NoScale(s: string)
    requires Lacks(s, 'ز') && Lacks(s, 'k')
    requires Lacks(s, 'م') || (Lacks(s, 'ی') && forall i :: 0 <= i < |s| ==> !IsWordChar(s[i]))
    ensures ScaleOf(s) == 1
  {
    var c := if Lacks(s, 'م') then 'م' else 'ی';
    Missing(s, "میلیارد", c);
    Missing(s, "ملیارد", c);
    Missing(s, "میلیون", c);
    Missing(s, "ملیون", c);
    Missing(s, "هزار", 'ز');
    HasMExactly(s);
    NoHasK(s);
  }

  lemma NoUnit(s: string)
    requires DigitsAndCommas(s)
    ensures CurrencyOf(s) == Toman && !Contains(s, "تومان") && !Contains(s, "ریال")
  {
    Missing(s, "دلار", 'د');
    Missing(s, "$", '$');
    Missing(s, "usd", 'u');
    Missing(s, "یورو", 'و');
    Missing(s, "€", '€');
    Missing(s, "eur", 'e');
    Missing(s, "درهم", 'د');
    Missing(s, "aed", 'a');
    Missing(s, "لیر", 'ل');
    Missing(s, "try", 't');
    Missing(s, "تومان", 'ت');
    Missing(s, "ریال", 'ر');
  }

  //#endregion
}
