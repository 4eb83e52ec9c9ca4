/**
 * Texts the backend writes, read by the backend: amounts in words, bare figures, rials, weights and whole loads. They pin
 * down what the readers make of scale words and units.
 */
module FareTexts {
  import opened Options
  import opened DigitGroups
  import opened Amounts
  import opened CargoPrice
  import opened TripFare
  import opened MoneyWords

  //#region Texts no currency sign hides in

  /** Two characters side by side that some currency's word has, or the abbreviation of million before a word character. */
  predicate BadPair(a: char, b: char) {
    || (a == 'د' && (b == 'ل' || b == 'ر'))
    || (a == 'ی' && b == 'ر')
    || (a == 'ر' && (b == 'ی' || b == 'و'))
    || (a == 'م' && (IsWordChar(b) || IsDigit(b)))
  }

  predicate Calm(s: string) {
    forall i :: 0 <= i < |s| - 1 ==> !BadPair(s[i], s[i + 1])
  }

  predicate IsPlain(c: char) {
    && !IsSepFor(c, true) && DotChar(c) == c && c != '.' && c != '$' && c != '€' && c != '_'
    && !('a' <= Lower(c) <= 'z')
  }

  predicate WordText(s: string) {
    Calm(s) && forall i :: 0 <= i < |s| ==> IsPlain(s[i])
  }

  /** What two texts may be joined at. */
  predicate Joins(x: string, y: string) {
    x == "" || y == "" || y[0] == ' ' || x[|x| - 1] == ' ' || IsDigit(x[|x| - 1])
  }

  lemma WordTextConcat(x: string, y: string)
    requires WordText(x) && WordText(y) && Joins(x, y)
    ensures WordText(x + y)
  {
    forall i | 0 <= i < |x + y| - 1 ensures !BadPair((x + y)[i], (x + y)[i + 1]) {
      if i < |x| - 1 {
        assert !BadPair(x[i], x[i + 1]);
      } else if i >= |x| {
        assert !BadPair(y[i - |x|], y[i - |x| + 1]);
      }
    }
  }

  lemma LatinKeepsWordText(s: string)
    requires WordText(s)
    ensures WordText(Latin(s))
  {
    MapAt(s, LatinChar);
    forall i | 0 <= i < |s| - 1 ensures !BadPair(Latin(s)[i], Latin(s)[i + 1]) {
      assert !BadPair(s[i], s[i + 1]);
    }
  }

  lemma {:induction false} MatchedChar(s: string, p: string, k: nat)
    requires MatchesAt(s, p, "") && k < |p|
    ensures k < |s| && Lower(s[k]) == p[k]
  {
    if k > 0 {
      MatchedChar(s[1..], p[1..], k - 1);
    }
  }

  lemma NoBadPair(s: string, k: nat)
    requires Calm(s) && k < |s| - 1
    ensures !BadPair(s[k], s[k + 1])
  {
  }

  lemma {:induction false} CalmLacks(s: string, p: string, k: nat)
    requires Calm(s) && k < |p| - 1 && BadPair(p[k], p[k + 1]) && !IsWordChar(p[k]) && !IsWordChar(p[k + 1])
    ensures !Contains(s, p)
  {
    if MatchesAt(s, p, "") {
      MatchedChar(s, p, k);
      MatchedChar(s, p, k + 1);
      NoBadPair(s, k);
    }
    if s != "" {
      forall i | 0 <= i < |s[1..]| - 1 ensures !BadPair(s[1..][i], s[1..][i + 1]) {
        assert !BadPair(s[i + 1], s[i + 2]);
      }
      CalmLacks(s[1..], p, k);
    }
  }

  lemma CalmHasNoM(s: string)
    ensures Calm(s) ==> !HasM(s)
  {
    HasMExactly(s);
    forall i: nat | HasMAt(s, i) ensures !Calm(s) {
      assert BadPair(s[i], s[i + 1]);
    }
  }

  lemma WordTextIsToman(s: string)
    requires WordText(s)
    ensures CurrencyOf(s) == Toman && !Contains(s, "ریال") && !HasM(s) && !HasK(s)
  {
    CalmLacks(s, "دلار", 0);
    Missing(s, "$", '$');
    Missing(s, "usd", 'u');
    CalmLacks(s, "یورو", 2);
    Missing(s, "€", '€');
    Missing(s, "eur", 'e');
    CalmLacks(s, "درهم", 0);
    Missing(s, "aed", 'a');
    CalmLacks(s, "لیر", 1);
    Missing(s, "try", 't');
    CalmLacks(s, "ریال", 0);
    CalmHasNoM(s);
    NoHasK(s);
  }

  //#endregion

  //#region The words of an amount

  predicate GoodPart(p: string) {
    p != "" && IsDigit(p[0]) && WordText(p)
  }

  lemma CountIsGood(n: nat)
    ensures GoodPart(Count(n)) && AllDigits(Count(n)) && Latin(Count(n)) == Decimal(n)
  {
    DecimalReadsBack(n);
    NatOfPersian(Decimal(n));
    LatinUndoesPersian(Decimal(n));
  }

  lemma BillionIsCalm()
    ensures WordText(" میلیارد")
  {
  }

  lemma MillionIsCalm()
    ensures WordText(" میلیون")
  {
  }

  lemma ThousandIsCalm()
    ensures WordText(" هزار")
  {
  }

  lemma ScaleWordLacks(scale: nat)
    ensures (scale >= 1 ==> Lacks(Word(scale), 'د')) && (scale >= 2 ==> Lacks(Word(scale), 'ی'))
  {
  }

  lemma ScaleWordIsCalm(scale: nat)
    ensures WordText(" " + Word(scale)) && (scale >= 1 ==> Lacks(Word(scale), 'د')) && (scale >= 2 ==> Lacks(Word(scale), 'ی'))
  {
    ScaleWordLacks(scale);
    match scale
    case 0 =>
      BillionIsCalm();
      assert " " + Word(scale) == " میلیارد";
    case 1 =>
      MillionIsCalm();
      assert " " + Word(scale) == " میلیون";
    case _ =>
      ThousandIsCalm();
      assert " " + Word(scale) == " هزار";
  }

  lemma PartIsGood(count: nat, scale: nat)
    ensures GoodPart(Part(count, scale))
    ensures scale >= 1 ==> Lacks(Part(count, scale), 'د')
    ensures scale >= 2 ==> Lacks(Part(count, scale), 'ی')
  {
    CountIsGood(count);
    ScaleWordIsCalm(scale);
    WordTextConcat(Count(count), " " + Word(scale));
    assert Part(count, scale) == Count(count) + (" " + Word(scale));
  }

  lemma {:induction false} JoinIsWordText(parts: seq<string>)
    requires forall i :: 0 <= i < |parts| ==> GoodPart(parts[i])
    ensures WordText(Join(parts, AND)) && (parts != [] ==> Join(parts, AND) != "" && IsDigit(Join(parts, AND)[0]))
  {
    if |parts| > 1 {
      JoinIsWordText(parts[1..]);
      AndIsWordText();
      WordTextConcat(AND, Join(parts[1..], AND));
      WordTextConcat(parts[0], AND + Join(parts[1..], AND));
      assert parts[0] + AND + Join(parts[1..], AND) == parts[0] + (AND + Join(parts[1..], AND));
    }
  }

  lemma AndIsWordText()
    ensures WordText(AND)
  {
  }

  lemma {:induction false} JoinLacks(parts: seq<string>, c: char)
    requires (forall i :: 0 <= i < |parts| ==> Lacks(parts[i], c)) && Lacks(AND, c)
    ensures Lacks(Join(parts, AND), c)
  {
    if |parts| > 1 {
      JoinLacks(parts[1..], c);
    }
  }

  //#endregion

  //#region An amount in words, read

  function FirstScale(n: nat): nat {
    if n >= 1_000_000_000 then 0 else if n >= 1_000_000 then 1 else if n >= 1000 then 2 else 3
  }

  /** The scale's size, one for the rest. */
  function Unit(scale: nat): (size: nat)
    ensures size > 0
  {
    if scale < 3 then Size(scale) else 1
  }

  function FirstCount(n: nat): nat {
    n / Unit(FirstScale(n))
  }

  /** The parts of an amount behind the first. */
  function PartsBehind(n: nat): seq<string> {
    (if FirstScale(n) < 1 then PartIfAny(CountOf(n, 1), 1) else [])
    + (if FirstScale(n) < 2 then PartIfAny(CountOf(n, 2), 2) else [])
    + (if FirstScale(n) < 3 then LastPart(n) else [])
  }

  function ScaleText(n: nat): string {
    if FirstScale(n) < 3 then " " + Word(FirstScale(n)) else ""
  }

  function BehindText(n: nat): string {
    if PartsBehind(n) == [] then "" else AND + Join(PartsBehind(n), AND)
  }

  /** The words of an amount behind the first figure. */
  function TailOf(n: nat): string {
    ScaleText(n) + (BehindText(n) + " تومان")
  }

  lemma FirstCounts(n: nat)
    requires n > 0
    ensures FirstCount(n) > 0
    ensures FirstScale(n) == 0 ==> CountOf(n, 0) == FirstCount(n)
    ensures FirstScale(n) > 0 ==> CountOf(n, 0) == 0
    ensures FirstScale(n) == 1 ==> CountOf(n, 1) == FirstCount(n)
    ensures FirstScale(n) > 1 ==> CountOf(n, 1) == 0
    ensures FirstScale(n) == 2 ==> CountOf(n, 2) == FirstCount(n)
    ensures FirstScale(n) > 2 ==> CountOf(n, 2) == 0 && Left(n, 3) == n == FirstCount(n)
  {
  }

  function FirstPart(n: nat): string {
    if FirstScale(n) < 3 then Part(FirstCount(n), FirstScale(n)) else Count(n)
  }

  function PartsOf(c0: nat, c1: nat, c2: nat, last: seq<string>): seq<string> {
    PartIfAny(c0, 0) + PartIfAny(c1, 1) + PartIfAny(c2, 2) + last
  }

  /** The first part of an amount, by which of its counts are not zero. */
  lemma FirstOfParts(c0: nat, c1: nat, c2: nat, last: seq<string>)
    ensures c0 != 0 ==> PartsOf(c0, c1, c2, last) == [Part(c0, 0)] + (PartIfAny(c1, 1) + PartIfAny(c2, 2) + last)
    ensures c0 == 0 && c1 != 0 ==> PartsOf(c0, c1, c2, last) == [Part(c1, 1)] + (PartIfAny(c2, 2) + last)
    ensures c0 == c1 == 0 && c2 != 0 ==> PartsOf(c0, c1, c2, last) == [Part(c2, 2)] + last
    ensures c0 == c1 == c2 == 0 ==> PartsOf(c0, c1, c2, last) == last
  {
  }

  lemma FirstPartOf(n: nat)
    requires n > 0
    ensures Parts(n) == [FirstPart(n)] + PartsBehind(n)
  {
    FirstCounts(n);
    FirstOfParts(CountOf(n, 0), CountOf(n, 1), CountOf(n, 2), LastPart(n));
    PartsAre(n);
  }

  function LastPart(n: nat): seq<string> {
    if Left(n, 3) == 0 then [] else [Count(Left(n, 3))]
  }

  lemma PartsAre(n: nat)
    ensures Parts(n) == PartsOf(CountOf(n, 0), CountOf(n, 1), CountOf(n, 2), LastPart(n))
  {
  }

  lemma WordedStartsWith(n: nat)
    requires n > 0
    ensures Worded(n) == Count(FirstCount(n)) + TailOf(n)
  {
    FirstPartOf(n);
    FirstCounts(n);
    FirstJoined(FirstPart(n), PartsBehind(n), " تومان");
    BehindFirst(n, BehindText(n) + " تومان");
  }

  lemma BehindFirst(n: nat, rest: string)
    requires n > 0
    ensures FirstPart(n) + rest
         == Count(FirstCount(n)) + (ScaleText(n) + rest)
  {
    FirstCounts(n);
    if FirstScale(n) < 3 {
      assert Part(FirstCount(n), FirstScale(n)) == Count(FirstCount(n)) + (" " + Word(FirstScale(n)));
    }
  }

  lemma FirstJoined(first: string, parts: seq<string>, unit: string)
    ensures Join([first] + parts, AND) + unit == first + ((if parts == [] then "" else AND + Join(parts, AND)) + unit)
  {
    if parts == [] {
      assert [first] + parts == [first];
    } else {
      assert ([first] + parts)[1..] == parts;
    }
  }

  lemma PartsBehindAreGood(n: nat)
    ensures forall i :: 0 <= i < |PartsBehind(n)| ==> GoodPart(PartsBehind(n)[i]) && Lacks(PartsBehind(n)[i], 'د')
    ensures FirstScale(n) >= 2 ==> forall i :: 0 <= i < |PartsBehind(n)| ==> Lacks(PartsBehind(n)[i], 'ی')
  {
    PartIsGood(CountOf(n, 1), 1);
    PartIsGood(CountOf(n, 2), 2);
    CountIsGood(Left(n, 3));
  }

  lemma BehindIsWordText(n: nat)
    ensures WordText(BehindText(n)) && (BehindText(n) == "" || BehindText(n)[0] == ' ')
    ensures Lacks(BehindText(n), 'د') && (FirstScale(n) >= 2 ==> Lacks(BehindText(n), 'ی'))
  {
    PartsBehindAreGood(n);
    JoinIsWordText(PartsBehind(n));
    JoinLacks(PartsBehind(n), 'د');
    if FirstScale(n) >= 2 { JoinLacks(PartsBehind(n), 'ی'); }
    AndIsWordText();
    WordTextConcat(AND, Join(PartsBehind(n), AND));
  }

  lemma UnitIsWordText(unit: string)
    requires unit == " تومان"
    ensures WordText(unit) && Lacks(unit, 'د') && Lacks(unit, 'ی') && !IsSpace(unit[|unit| - 1]) && !IsDigit(unit[|unit| - 1])
  {
  }

  /** The text behind the first figure: its scale word, if any, is the largest in it. */
  lemma TailIsWordText(n: nat, unit: string)
    requires n > 0 && unit == " تومان"
    ensures WordText(TailOf(n)) && TailOf(n) != "" && TailOf(n)[0] == ' '
    ensures TailOf(n)[|TailOf(n)| - 1] == unit[|unit| - 1] && TailOf(n) == ScaleText(n) + BehindText(n) + unit
    ensures FirstScale(n) >= 1 ==> Lacks(TailOf(n), 'د')
    ensures FirstScale(n) >= 2 ==> Lacks(TailOf(n), 'ی')
  {
    BehindIsWordText(n);
    ScaleWordIsCalm(FirstScale(n));
    UnitIsWordText(unit);
    WordTextConcat(BehindText(n), unit);
    WordTextConcat(ScaleText(n), BehindText(n) + unit);
  }

  lemma {:induction false} PrefixFound(p: string, x: string)
    requires forall i :: 0 <= i < |p| ==> Lower(p[i]) == p[i]
    ensures MatchesAt(p + x, p, "")
  {
    if p != "" {
      PrefixFound(p[1..], x);
      assert (p + x)[1..] == p[1..] + x;
    }
  }

  lemma WordFound(word: string, x: string, t: string)
    requires forall i :: 0 <= i < |word| ==> Lower(word[i]) == word[i]
    requires t == " " + word + x
    ensures Contains(t, word)
  {
    PrefixFound(word, x);
    assert t[1..] == word + x;
    assert Matches(t[1..], word, "");
  }

  lemma LatinLacks(s: string, c: char)
    ensures Lacks(s, c) && !IsLatin(c) ==> Lacks(Latin(s), c)
  {
    MapAt(s, LatinChar);
  }

  lemma LatinTail(n: nat, rest: string)
    requires FirstScale(n) < 3
    ensures Latin(ScaleText(n) + rest) == " " + Word(FirstScale(n)) + Latin(rest)
  {
    ScaleWordIsCalm(FirstScale(n));
    ScaleHasNoDigits(FirstScale(n));
    MapFixed(ScaleText(n), LatinChar);
    MapConcat(ScaleText(n), rest, LatinChar);
  }

  /** A text with a scale's word and none of a larger one. */
  lemma ScaleIs(t: string, scale: nat)
    requires scale < 3 && Contains(t, Word(scale)) && WordText(t)
    requires scale >= 1 ==> Lacks(t, 'د')
    requires scale >= 2 ==> Lacks(t, 'ی')
    ensures ScaleOf(t) == Size(scale)
  {
    if scale >= 1 {
      Missing(t, "میلیارد", 'د');
      Missing(t, "ملیارد", 'د');
    }
    if scale >= 2 {
      Missing(t, "میلیون", 'ی');
      Missing(t, "ملیون", 'ی');
      CalmHasNoM(t);
    }
  }

  lemma TailScale(n: nat, unit: string)
    requires n > 0 && unit == " تومان"
    ensures ScaleOf(Latin(TailOf(n))) == Unit(FirstScale(n))
  {
    var s := FirstScale(n);
    var rest := BehindText(n) + unit;
    TailIsWordText(n, unit);
    LatinKeepsWordText(TailOf(n));
    if s < 3 {
      LatinTail(n, rest);
      ScaleHasNoDigits(s);
      WordFound(Word(s), Latin(rest), Latin(TailOf(n)));
      if s >= 1 { LatinLacks(TailOf(n), 'د'); }
      if s >= 2 { LatinLacks(TailOf(n), 'ی'); }
      ScaleIs(Latin(TailOf(n)), s);
    } else {
      OnlyUnit(n, unit);
    }
  }

  lemma OnlyUnit(n: nat, unit: string)
    requires FirstScale(n) == 3 && unit == " تومان"
    ensures ScaleOf(Latin(TailOf(n))) == 1
  {
    assert PartsBehind(n) == [];
    assert TailOf(n) == unit == UnitText(Toman);
    UnitIsPlain(Toman);
    MapFixed(unit, LatinChar);
    UnitHasNoScale(Toman);
  }

  /** What the reader makes of a text without separators, fractions and signs. */
  lemma WordPriceText(s: string)
    requires WordText(s) && s != "" && IsDigit(s[0]) && !IsSpace(s[|s| - 1]) && !IsDigit(s[|s| - 1])
    ensures PriceText(s) == Latin(s)
    ensures !AllDigits(Compact(Latin(s)))
  {
    PriceTextUpToDots(s);
    StripNothing(s, true);
    LatinKeepsWordText(s);
    MapFixed(Latin(s), DotChar);
    MapAt(s, LatinChar);
    assert Latin(s)[0] == LatinChar(s[0]) && Latin(s)[|s| - 1] == s[|s| - 1];
    CompactKeeps(Latin(s), |s| - 1);
  }

  lemma TomanAtEnd(s: string, unit: string, front: string)
    requires unit == " تومان" && s == front + unit
    ensures Contains(Latin(s), "تومان")
  {
    assert unit == UnitText(Toman);
    UnitIsPlain(Toman);
    MapConcat(front, unit, LatinChar);
    MapFixed(unit, LatinChar);
    LabelFound(Latin(front), unit, "تومان");
  }

  /** The price of an amount in words, before it is checked for size. */
  lemma WordedPrice(n: nat, unit: string)
    requires n > 0 && unit == " تومان"
    ensures PriceText(Worded(n)) == Latin(Worded(n)) && Worded(n) != "" && !AllDigits(Compact(Latin(Worded(n))))
    ensures ReadPrice(Latin(Worded(n))) == Some(Price(FirstCount(n) * Unit(FirstScale(n)), Toman))
  {
    var k, tail := FirstCount(n), TailOf(n);
    WordedStartsWith(n);
    TailIsWordText(n, unit);
    UnitIsWordText(unit);
    CountIsGood(k);
    WordTextConcat(Count(k), tail);
    JoinedEnds(Count(k), tail);
    WordPriceText(Count(k) + tail);
    MapConcat(Count(k), tail, LatinChar);
    DecimalReadsBack(k);
    FirstCounts(n);
    WordedFigure(k, tail, Unit(FirstScale(n)), ScaleText(n) + BehindText(n), unit) by {
      TailScale(n, unit);
    }
  }

  lemma JoinedEnds(x: string, y: string)
    ensures x != "" && y != "" ==> x + y != "" && (x + y)[0] == x[0] && (x + y)[|x + y| - 1] == y[|y| - 1]
  {
  }

  lemma WordedFigure(k: nat, tail: string, scale: int, front: string, unit: string)
    requires k > 0 && scale > 0 && unit == " تومان" && tail == front + unit && tail[0] == ' '
    requires ScaleOf(Latin(tail)) == scale && WordText(Count(k) + tail)
    requires Latin(Count(k) + tail) == Decimal(k) + Latin(tail)
    ensures ReadPrice(Decimal(k) + Latin(tail)) == Some(Price(k * scale, Toman))
  {
    var t := Latin(tail);
    DecimalReadsBack(k);
    LatinKeepsWordText(Count(k) + tail);
    WordTextIsToman(Decimal(k) + t);
    TomanAtEnd(Count(k) + tail, unit, Count(k) + front);
    assert Count(k) + tail == Count(k) + front + unit;
    MapAt(tail, LatinChar);
    FigureOnly(Decimal(k), t, Toman, scale);
    TomansScaled(k, scale);
  }

  lemma TomansScaled(k: nat, scale: int)
    requires k > 0 && scale > 0
    ensures PriceOf(k as real, Toman, scale, true, false) == Some(Price(k * scale, Toman))
  {
    WholeAmount(k, Toman, scale, true, false);
  }

  /** An amount of tomans cut down to its first part in words. */
  function Leading(n: nat): nat {
    FirstCount(n) * Unit(FirstScale(n))
  }

  /** What is read of an amount in words is its first part. */
  lemma WordedReadsItsFirstPart(n: nat)
    requires 0 < n <= MAX_SAFE
    ensures ReadAmount(Worded(n)) == Some(Price(Leading(n), Toman))
  {
    WordedPrice(n, " تومان");
    FirstCounts(n);
    LeadingBound(n);
  }

  lemma LeadingBound(n: nat)
    requires n > 0
    ensures 0 < Leading(n) <= n && (Leading(n) == n <==> n % Unit(FirstScale(n)) == 0)
  {
  }

  /** So an amount in words reads back exactly when it has one part: nothing below its largest scale. */
  lemma WordedReadsBackExactlyWithOnePart(n: nat)
    requires 0 < n <= MAX_SAFE
    ensures ReadAmount(Worded(n)) == Some(Price(n, Toman)) <==> n % Unit(FirstScale(n)) == 0
  {
    WordedReadsItsFirstPart(n);
    LeadingBound(n);
  }

  //#endregion

  //#region Bare figures and rials

  lemma {:induction false} NothingToDrop(t: string)
    requires forall i :: 0 <= i < |t| ==> !IsSep(t[i]) && !IsSpace(t[i])
    ensures Compact(t) == t
  {
    if t != "" {
      NothingToDrop(t[1..]);
    }
  }

  /** The figure as its readers see it: Latin digits, without its separators. */
  lemma FigureStripped(n: nat, tail: string, fa: bool)
    requires forall i :: 0 <= i < |tail| ==> !IsDigit(tail[i]) && !IsSepFor(tail[i], fa)
    ensures Latin(FaNumber(n) + tail) == Separated(Decimal(n), FA_SEP) + tail
    ensures Strip(Latin(FaNumber(n) + tail), fa) == Decimal(n) + tail
  {
    DecimalReadsBack(n);
    ShownInLatin(n);
    MapFixed(tail, LatinChar);
    MapConcat(FaNumber(n), tail, LatinChar);
    StripSeparated(Decimal(n), FA_SEP, tail, fa);
    StripNothing(tail, fa);
  }

  lemma BareText(n: nat, none: string)
    requires none == ""
    ensures PriceText(FaNumber(n)) == Decimal(n)
  {
    DecimalReadsBack(n);
    assert FaNumber(n) + none == FaNumber(n) && Decimal(n) + none == Decimal(n);
    FigureStripped(n, none, true);
    MapFixed(Decimal(n), DotChar);
  }

  lemma ShownInLatin(n: nat)
    ensures Latin(FaNumber(n)) == Separated(Decimal(n), FA_SEP)
  {
    DecimalReadsBack(n);
    SeparatedChars(Decimal(n), FA_SEP);
    LatinUndoesPersian(Separated(Decimal(n), FA_SEP));
  }

  lemma CompactFigure(d: string)
    requires AllLatin(d)
    ensures Compact(Separated(d, FA_SEP)) == d
  {
    CompactSeparated(d, FA_SEP);
    NothingToDrop(d);
  }

  lemma BareClean(n: nat)
    ensures Compact(Latin(FaNumber(n))) == Decimal(n)
  {
    ShownInLatin(n);
    DecimalReadsBack(n);
    CompactFigure(Decimal(n));
  }

  /** A text that is nothing but a figure. */
  lemma BareRead(x: string, none: string)
    requires AllLatin(x) && x != "" && none == ""
    ensures ReadPrice(x) == if NatOf(x) >= 1_000_000 then Some(Price(NatOf(x), Toman)) else None
  {
    NoUnit(x);
    NoScale(none);
    Alone(x, none);
    BareTomans(NatOf(x));
  }

  lemma BareTomans(n: nat)
    ensures PriceOf(n as real, Toman, 1, false, false) == if n >= 1_000_000 then Some(Price(n, Toman)) else None
  {
  }

  lemma {:induction false} SomethingShown(n: nat)
    ensures FaNumber(n) != ""
  {
    SeparatedShape(Decimal(n), FA_SEP);
  }

  /** A bare figure is a load's price from a million tomans on, and a typed amount as it is written. */
  lemma BareFigureReadsBack(n: nat)
    ensures ParseCargoPrice(FaNumber(n)) == if n >= 1_000_000 then Some(Price(n, Toman)) else None
    ensures ReadAmount(FaNumber(n)) == if 0 < n <= MAX_SAFE then Some(Price(n, Toman)) else None
  {
    BareText(n, "");
    BareClean(n);
    DecimalReadsBack(n);
    BareRead(Decimal(n), "");
    SomethingShown(n);
  }

  lemma TenthRounded(n: nat)
    ensures Round(n as real / 10.0) == (n + 5) / 10
  {
    var q := (n + 5) / 10;
    assert n as real / 10.0 + 0.5 == (n + 5) as real / 10.0;
    assert (10 * q) as real <= (n + 5) as real < (10 * q + 10) as real;
  }

  lemma NotLiraAtEnd(x: string, tail: string)
    requires AllLatin(x) && tail == " ریال"
    ensures !Contains(x + tail, "لیر")
  {
    NotAtTheEnd(tail, "لیر");
    MatchesBehind(x, tail, "لیر", "");
  }

  lemma RialsFound(x: string, tail: string)
    requires AllLatin(x) && tail == " ریال"
    ensures CurrencyOf(x + tail) == Toman && Contains(x + tail, "ریال") && ScaleOf(tail) == 1
  {
    NotDollar(x, tail, 'د');
    NotEuro(x, tail, 'و');
    NotDirham(x, tail);
    MissingIn(x, tail, "try", 't');
    NotLiraAtEnd(x, tail);
    LabelFound(x, tail, "ریال");
    NoScale(tail);
  }

  /** A pattern of more than one character does not start with the last one. */
  lemma {:induction false} NotAtTheEnd(s: string, p: string)
    requires |p| > 1 && forall i :: 0 <= i < |s| - 1 ==> Lower(s[i]) != p[0]
    ensures !Contains(s, p)
  {
    if MatchesAt(s, p, "") {
      MatchedChar(s, p, 0);
      MatchedChar(s, p, 1);
    }
    if s != "" {
      NotAtTheEnd(s[1..], p);
    }
  }

  /** An amount in rials is read as tomans, a tenth of it, rounded. */
  lemma RialsReadAsTomans(n: nat)
    requires n > 0
    ensures ParseCargoPrice(FaNumber(n) + " ریال") == Some(Price((n + 5) / 10, Toman))
  {
    var tail := " ریال";
    assert PlainTail(tail);
    ShownPriceText(n, tail);
    DecimalReadsBack(n);
    RialsFound(Decimal(n), tail);
    FigureOnly(Decimal(n), tail, Toman, 1);
    RialPrice(n, Contains(Decimal(n) + tail, "تومان"));
    assert FaNumber(n) + tail != "";
  }

  lemma RialPrice(n: nat, tomans: bool)
    ensures n > 0 ==> PriceOf(n as real, Toman, 1, tomans, true) == Some(Price((n + 5) / 10, Toman))
  {
    TenthRounded(n);
  }

  //#endregion

  //#region The abbreviation of million

  /**
   * «م» scales a figure, where no other word for a million or more does, exactly if it stands somewhere right before a
   * Latin letter, a digit or an underscore: the pattern's word boundary knows no other word characters.
   */
  lemma AbbreviationScalesExactly(tail: string)
    requires !Contains(tail, "میلیارد") && !Contains(tail, "ملیارد") && !Contains(tail, "میلیون") && !Contains(tail, "ملیون")
    ensures ScaleOf(tail) == 1_000_000 <==> exists i: nat :: HasMAt(tail, i)
  {
    HasMExactly(tail);
  }

  lemma MFollowed(tail: string, rest: string)
    requires tail == " م" + rest && (rest == "" || (|rest| == 1 && IsWordChar(rest[0])))
    ensures ScaleOf(tail) == if rest == "" then 1 else 1_000_000
  {
    Missing(tail, "میلیارد", 'ی');
    Missing(tail, "ملیارد", 'ی');
    Missing(tail, "میلیون", 'ی');
    Missing(tail, "ملیون", 'ی');
    AbbreviationScalesExactly(tail);
    if rest == "" {
      Missing(tail, "هزار", 'ز');
      NoHasK(tail);
      HasMExactly(tail);
    } else {
      assert HasMAt(tail, 1);
    }
  }

  lemma MHasNoUnit(x: string, tail: string, rest: string)
    requires AllLatin(x) && tail == " م" + rest && (rest == "" || (|rest| == 1 && IsWordChar(rest[0])))
    ensures CurrencyOf(x + tail) == Toman && !Contains(x + tail, "تومان") && !Contains(x + tail, "ریال")
  {
    MissingIn(x, tail, "دلار", 'د');
    MissingIn(x, tail, "$", '$');
    MissingIn(x, tail, "یورو", 'و');
    MissingIn(x, tail, "€", '€');
    MissingIn(x, tail, "درهم", 'د');
    MissingIn(x, tail, "لیر", 'ل');
    MissingIn(x, tail, "تومان", 'ت');
    MissingIn(x, tail, "ریال", 'ر');
    NoLatinWord(x, tail, "usd");
    NoLatinWord(x, tail, "eur");
    NoLatinWord(x, tail, "aed");
    NoLatinWord(x, tail, "try");
  }

  /** One letter is no Latin currency word. */
  lemma NoLatinWord(x: string, tail: string, p: string)
    requires AllLatin(x) && (p == "usd" || p == "eur" || p == "aed" || p == "try")
    requires 2 <= |tail| <= 3 && tail[0] == ' ' && tail[1] == 'م'
    ensures !Contains(x + tail, p)
  {
    NotAtTheEnd(x + tail, p);
  }

  /** Nothing of a text behind a figure is rewritten by the price's reader. */
  predicate Untouched(tail: string) {
    && tail != "" && !IsSpace(tail[|tail| - 1])
    && forall i :: 0 <= i < |tail| ==> LatinChar(tail[i]) == tail[i] && DotChar(tail[i]) == tail[i] && !IsSepFor(tail[i], true)
  }

  lemma UntouchedPriceText(n: nat, tail: string)
    requires Untouched(tail)
    ensures PriceText(FaNumber(n) + tail) == Decimal(n) + tail
  {
    DecimalReadsBack(n);
    ShownInLatin(n);
    MapFixed(tail, LatinChar);
    MapConcat(FaNumber(n), tail, LatinChar);
    StripSeparated(Decimal(n), FA_SEP, tail, true);
    StripNothing(tail, true);
    UntouchedTrim(Decimal(n), tail);
  }

  lemma UntouchedTrim(d: string, tail: string)
    requires AllLatin(d) && d != "" && Untouched(tail)
    ensures TrimEnd(TrimStart(Dots(d + tail))) == d + tail
  {
    MapFixed(d + tail, DotChar);
    JoinedEnds(d, tail);
  }

  lemma MUntouched(tail: string, rest: string)
    requires tail == " م" + rest && (rest == "" || (|rest| == 1 && IsWordChar(rest[0])))
    ensures Untouched(tail) && tail[0] == ' '
  {
  }

  lemma MPrice(n: nat, tail: string, rest: string)
    requires n > 0 && tail == " م" + rest && (rest == "" || (|rest| == 1 && IsWordChar(rest[0])))
    ensures ParseCargoPrice(FaNumber(n) + tail)
         == if rest != "" then Some(Price(n * 1_000_000, Toman))
            else if n >= 1_000_000 then Some(Price(n, Toman)) else None
  {
    MUntouched(tail, rest);
    UntouchedPriceText(n, tail);
    DecimalReadsBack(n);
    MFollowed(tail, rest);
    MHasNoUnit(Decimal(n), tail, rest);
    FigureOnly(Decimal(n), tail, Toman, if rest == "" then 1 else 1_000_000);
    BareTomans(n);
    WholeAmount(n, Toman, 1_000_000, false, false);
    assert FaNumber(n) + tail != "";
  }

  /** A figure with «م» behind it, the way it is written, is read as if the abbreviation were not there. */
  lemma AbbreviationIsLost(n: nat)
    requires n > 0
    ensures ParseCargoPrice(FaNumber(n) + " م") == if n >= 1_000_000 then Some(Price(n, Toman)) else None
  {
    assert " م" + "" == " م";
    MPrice(n, " م", "");
  }

  /** It counts with a Latin letter, a digit or an underscore stuck to it. */
  lemma AbbreviationCounts(n: nat, c: char)
    requires n > 0 && IsWordChar(c)
    ensures ParseCargoPrice(FaNumber(n) + (" م" + [c])) == Some(Price(n * 1_000_000, Toman))
  {
    MPrice(n, " م" + [c], [c]);
  }

  //#endregion

  //#region A comma before a grouped run

  lemma {:induction false} NothingToGroup(prev: Option<char>, s: string)
    requires forall i :: 0 <= i < |s| ==> !IsDigit(s[i])
    ensures GroupFrom(prev, s) == s
    decreases |s|
  {
    if s != "" {
      NothingToGroup(Some(s[0]), s[1..]);
    }
  }

  /** The runs of a price with a comma: a short one, and one that is grouped with a short first group. */
  predicate CommaRuns(a: string, b: string) {
    AllLatin(a) && AllLatin(b) && 1 <= |a| <= 3 && |b| >= 4 && |b| % 3 != 0 && b[0] != '0'
  }

  predicate UnitOrNone(tail: string) {
    tail == "" || PlainTail(tail)
  }

  lemma LatinRunRewritten(b: string, rest: string)
    requires AllLatin(b) && |b| >= 4 && b[0] != '0' && (rest == "" || rest[0] == ' ')
    ensures Rewritten(Some(FA_COMMA), b, rest) == Separated(b, COMMA)
  {
    assert IsLatin(b[0]);
  }

  lemma RunBeforeUnit(b: string, tail: string)
    requires AllLatin(b) && |b| >= 4 && b[0] != '0' && UnitOrNone(tail)
    ensures GroupFrom(Some(FA_COMMA), b + tail) == Separated(b, COMMA) + tail
  {
    LatinRunRewritten(b, tail);
    GroupRun(Some(FA_COMMA), b, tail);
    NothingToGroup(Some(b[|b| - 1]), tail);
  }

  lemma CommaGrouped(a: string, b: string, tail: string, rest: string)
    requires CommaRuns(a, b) && UnitOrNone(tail) && rest == [FA_COMMA] + (b + tail)
    ensures GroupDigits(a + rest) == a + ([FA_COMMA] + (Separated(b, COMMA) + tail))
  {
    GroupRun(None, a, rest);
    GroupOther(Some(a[|a| - 1]), FA_COMMA, b + tail);
    RunBeforeUnit(b, tail);
  }

  lemma CommaDropped(b: string, tail: string)
    requires AllLatin(b) && |b| >= 4 && UnitOrNone(tail)
    ensures Strip([FA_COMMA] + (b + tail), true) == b + tail
  {
    StripRun(b, tail, true);
    StripNothing(tail, true);
    assert ([FA_COMMA] + (b + tail))[1..] == b + tail;
  }

  lemma CommaStays(b: string, tail: string)
    requires AllLatin(b) && |b| >= 4 && |b| % 3 != 0 && UnitOrNone(tail)
    ensures Strip([FA_COMMA] + (Separated(b, COMMA) + tail), true) == [FA_COMMA] + (b + tail)
  {
    StripSeparated(b, COMMA, tail, true);
    StripNothing(tail, true);
    ThreeOfSeparated(b, COMMA, tail);
    assert ([FA_COMMA] + (Separated(b, COMMA) + tail))[1..] == Separated(b, COMMA) + tail;
  }

  /** Nothing of a text of Latin digits, commas and a unit is rewritten once it is stripped. */
  lemma CommaPriceTextWithUnit(a: string, rest: string, x: string, tail: string)
    requires AllLatin(a) && a != "" && DigitsAndCommas(x) && UnitOrNone(tail) && Strip(rest, true) == x + tail
    ensures PriceText(a + rest) == a + x + tail
  {
    StripRun(a, rest, true);
    assert a + (x + tail) == a + x + tail;
    EndsOf(a, x, tail);
    PlainPriceText(a + rest, a + x + tail);
  }

  lemma EndsOf(a: string, x: string, tail: string)
    requires AllLatin(a) && a != "" && DigitsAndCommas(x) && UnitOrNone(tail)
    ensures var t := a + x + tail;
            && t != "" && !IsSpace(t[0]) && !IsSpace(t[|t| - 1])
            && forall i :: 0 <= i < |t| ==> LatinChar(t[i]) == t[i] && DotChar(t[i]) == t[i]
  {
    var t := a + x + tail;
    assert t[0] == a[0] && (tail != "" ==> t[|t| - 1] == tail[|tail| - 1]) && (tail == "" ==> t == a + x);
  }

  /** Digits and commas before a unit make no scale. */
  lemma UnitAloneHasNoScale(x: string, currency: Currency)
    requires DigitsAndCommas(x)
    ensures ScaleOf(x + UnitText(currency)) == 1
  {
    var tail := UnitText(currency);
    var t := x + tail;
    UnitIsLiteral(currency);
    UnitHasNoScale(currency);
    var c := if currency.Toman? || currency.Dirham? then 'ی' else 'م';
    assert Lacks(tail, c) && Lacks(tail, 'ز') && Lacks(tail, 'k');
    MissingIn(x, tail, "میلیارد", c);
    MissingIn(x, tail, "ملیارد", c);
    MissingIn(x, tail, "میلیون", c);
    MissingIn(x, tail, "ملیون", c);
    MissingIn(x, tail, "هزار", 'ز');
    LacksIn(x, tail, 'k');
    NoHasK(t);
    UnitIsPlain(currency);
    NoMBehind(x, tail);
  }

  lemma NoMBehind(x: string, tail: string)
    requires DigitsAndCommas(x) && PlainTail(tail)
    ensures !HasM(x + tail)
  {
    HasMExactly(x + tail);
    forall i: nat ensures !HasMAt(x + tail, i) {
      if i < |x + tail| - 1 && (x + tail)[i] == 'م' {
        assert i >= |x| && (x + tail)[i + 1] == tail[i + 1 - |x|];
      }
    }
  }

  /** The price of a text that starts with a figure, then digits and commas, and ends with a unit. */
  lemma CommaPriceRead(a: string, x: string, currency: Currency)
    requires AllLatin(a) && a != "" && DigitsAndCommas(x) && (x == "" || x[0] == FA_COMMA) && NatOf(a) > 0
    ensures ReadPrice(a + x + UnitText(currency)) == Some(Price(NatOf(a), currency))
  {
    var tail := UnitText(currency);
    assert a + x + tail == a + (x + tail);
    UnitIsPlain(currency);
    UnitFound(a + x, currency);
    UnitAloneHasNoScale(x, currency);
    FigureOnly(a, x + tail, currency, 1);
    WholeAmount(NatOf(a), currency, 1, Contains(a + x + tail, "تومان"), Contains(a + x + tail, "ریال"));
  }

  /**
   * A price of such runs in any unit: before grouping the runs are one figure, after it the first of them alone. So is
   * the amount read, and the rate a company's form starts from.
   */
  lemma CommaPriceChanges(a: string, b: string, currency: Currency, raw: string, weight: string)
    requires CommaRuns(a, b) && NatOf(a) > 0 && 0 < NatOf(a + b) <= MAX_SAFE
    requires raw == a + ([FA_COMMA] + (b + UnitText(currency)))
    ensures ParseCargoPrice(raw) == ReadAmount(raw) == Some(Price(NatOf(a + b), currency))
    ensures ParseCargoPrice(GroupDigits(raw)) == ReadAmount(GroupDigits(raw)) == Some(Price(NatOf(a), currency))
    ensures DefaultsFromListing(raw, weight).rate == Some(NatOf(a + b))
    ensures DefaultsFromListing(GroupDigits(raw), weight).rate == Some(NatOf(a))
  {
    UnitIsPlain(currency);
    CommaGrouped(a, b, UnitText(currency), [FA_COMMA] + (b + UnitText(currency)));
    CommaReadsBefore(a, b, currency, [FA_COMMA] + (b + UnitText(currency)));
    CommaReadsAfter(a, b, currency, [FA_COMMA] + (Separated(b, COMMA) + UnitText(currency)), [FA_COMMA] + b);
    RateIsAmount(raw, weight);
    RateIsAmount(GroupDigits(raw), weight);
  }

  lemma FewDigitsFirst(a: string, rest: string)
    requires AllLatin(a) && 1 <= |a| <= 3 && rest != "" && rest[0] == FA_COMMA && DigitsAndCommas(rest)
    ensures ReadPrice(a + rest) == None
  {
    NoUnit(a + rest);
    NoScale(rest);
    FigureOnly(a, rest, Toman, 1);
    NatOfBound(a, 3);
    assert Pow10(3) == 1000;
  }

  lemma CommaTextBefore(a: string, b: string, tail: string, rest: string)
    requires CommaRuns(a, b) && UnitOrNone(tail) && rest == [FA_COMMA] + (b + tail)
    ensures PriceText(a + rest) == a + b + tail
  {
    CommaDropped(b, tail);
    CommaPriceTextWithUnit(a, rest, b, tail);
  }

  lemma CommaTextAfter(a: string, b: string, tail: string, rest: string, x: string)
    requires CommaRuns(a, b) && UnitOrNone(tail) && rest == [FA_COMMA] + (Separated(b, COMMA) + tail) && x == [FA_COMMA] + b
    ensures PriceText(a + rest) == a + x + tail
  {
    CommaStays(b, tail);
    assert [FA_COMMA] + (b + tail) == x + tail;
    CommaPriceTextWithUnit(a, rest, x, tail);
  }

  lemma NoneBehind(a: string, b: string)
    ensures a + b + "" == a + b && b + "" == b
  {
  }

  lemma GluedBefore(a: string, b: string, rest: string, none: string)
    requires CommaRuns(a, b) && NatOf(a + b) >= 1_000_000 && none == "" && rest == [FA_COMMA] + (b + none)
    ensures ParseCargoPrice(a + rest) == Some(Price(NatOf(a + b), Toman))
  {
    CommaTextBefore(a, b, none, rest);
    NoneBehind(a, b);
    BareRead(a + b, none);
  }

  lemma PartedAfter(a: string, b: string, rest: string, x: string, none: string)
    requires CommaRuns(a, b) && none == "" && rest == [FA_COMMA] + (Separated(b, COMMA) + none) && x == [FA_COMMA] + b
    ensures ParseCargoPrice(a + rest) == None
  {
    CommaTextAfter(a, b, none, rest, x);
    NoneBehind(a, x);
    FewDigitsFirst(a, x);
    ParsedAs(a + rest, a + x);
  }

  lemma ParsedAs(text: string, kept: string)
    requires text != "" && PriceText(text) == kept
    ensures ParseCargoPrice(text) == ReadPrice(kept)
  {
  }

  /** The bare runs of a price: the runs glued together are read before grouping, and nothing after it. */
  lemma CommaPriceIsLost(a: string, b: string, raw: string)
    requires CommaRuns(a, b) && NatOf(a + b) >= 1_000_000 && raw == a + ([FA_COMMA] + b)
    ensures ParseCargoPrice(raw) == Some(Price(NatOf(a + b), Toman))
    ensures ParseCargoPrice(GroupDigits(raw)) == None
  {
    NoneBehind(a, b);
    CommaGrouped(a, b, "", [FA_COMMA] + b);
    GluedBefore(a, b, [FA_COMMA] + b, "");
    PartedAfter(a, b, [FA_COMMA] + (Separated(b, COMMA) + ""), [FA_COMMA] + b, "");
  }

  lemma RateIsAmount(price: string, weight: string)
    ensures ReadAmount(price).Some? ==> DefaultsFromListing(price, weight).rate == Some(ReadAmount(price).value.amount)
  {
  }

  /** A text whose figure, digits and commas and unit the reader sees as they are. */
  lemma UnitReads(text: string, a: string, x: string, currency: Currency)
    requires text != "" && !AllDigits(Compact(Latin(text))) && PriceText(text) == a + x + UnitText(currency)
    requires AllLatin(a) && a != "" && DigitsAndCommas(x) && (x == "" || x[0] == FA_COMMA) && 0 < NatOf(a) <= MAX_SAFE
    ensures ParseCargoPrice(text) == ReadAmount(text) == Some(Price(NatOf(a), currency))
  {
    CommaPriceRead(a, x, currency);
    ParsedAs(text, a + x + UnitText(currency));
    ReadsItsPrice(text, Price(NatOf(a), currency));
  }

  lemma CommaReadsBefore(a: string, b: string, currency: Currency, rest: string)
    requires CommaRuns(a, b) && 0 < NatOf(a + b) <= MAX_SAFE && rest == [FA_COMMA] + (b + UnitText(currency))
    ensures ParseCargoPrice(a + rest) == ReadAmount(a + rest) == Some(Price(NatOf(a + b), currency))
  {
    UnitIsPlain(currency);
    CommaTextBefore(a, b, UnitText(currency), rest);
    NoneBehind(a, b);
    EndsWithUnit(a, rest, UnitText(currency));
    UnitReads(a + rest, a + b, "", currency);
  }

  lemma CommaReadsAfter(a: string, b: string, currency: Currency, rest: string, x: string)
    requires CommaRuns(a, b) && NatOf(a) > 0
    requires rest == [FA_COMMA] + (Separated(b, COMMA) + UnitText(currency)) && x == [FA_COMMA] + b
    ensures ParseCargoPrice(a + rest) == ReadAmount(a + rest) == Some(Price(NatOf(a), currency))
  {
    UnitIsPlain(currency);
    CommaTextAfter(a, b, UnitText(currency), rest, x);
    EndsWithUnit(a, rest, UnitText(currency));
    ShortFigure(a);
    UnitReads(a + rest, a, x, currency);
  }

  lemma ShortFigure(a: string)
    requires AllLatin(a) && |a| <= 3
    ensures NatOf(a) <= MAX_SAFE
  {
    NatOfBound(a, 3);
    assert Pow10(3) == 1000;
  }

  lemma EndsWithUnit(a: string, rest: string, tail: string)
    requires PlainTail(tail) && |rest| >= |tail| && rest[|rest| - |tail|..] == tail
    ensures a + rest != "" && !AllDigits(Compact(Latin(a + rest)))
  {
    var front := a + rest[..|rest| - |tail|];
    assert a + rest == front + tail;
    UnitIsNoBareNumber(front, tail, a + rest);
  }

  //#endregion

  //#region Weights

  /** A weight in hundredths of a ton, if it is one a truck carries. */
  function Carried(hundredths: int): Option<int> {
    if 0 < hundredths <= MAX_WEIGHT then Some(hundredths) else None
  }

  predicate PlainWeightTail(t: string) {
    && (t == "" || (t[0] != '.' && !IsDigit(t[0])))
    && forall i :: 0 <= i < |t| ==> !IsDigit(t[i]) && !IsSepFor(t[i], false) && DotChar(t[i]) == t[i]
  }

  lemma ShownWeightText(n: nat, tail: string)
    requires PlainWeightTail(tail)
    ensures WeightText(FaNumber(n) + tail) == Decimal(n) + tail && TypedWeight(Decimal(n) + tail) == n as real
  {
    DecimalReadsBack(n);
    FigureStripped(n, tail, false);
    StripMapped(Latin(FaNumber(n) + tail), false, DotChar);
    MapFixed(Decimal(n) + tail, DotChar);
    FigureFirst(Decimal(n), tail);
  }

  lemma RoundedWeight(n: nat, kilos: bool)
    ensures Round((if kilos then n as real / 1000.0 else n as real) * 100.0) == if kilos then (n + 5) / 10 else 100 * n
  {
    TenthRounded(n);
    assert n as real / 1000.0 * 100.0 == n as real / 10.0;
    assert n as real * 100.0 == (100 * n) as real;
  }

  lemma ShownWeight(n: nat, tail: string, unit: WeightUnit)
    requires PlainWeightTail(tail)
    ensures ReadWeight(FaNumber(n) + tail, unit)
         == if n == 0 then None else Carried(if InKilos(Decimal(n) + tail, n as real, unit) then (n + 5) / 10 else 100 * n)
  {
    ShownWeightText(n, tail);
    SomethingShown(n);
    RoundedWeight(n, InKilos(Decimal(n) + tail, n as real, unit));
  }

  lemma TonsFound(x: string, tail: string)
    requires AllLatin(x) && tail == " تن"
    ensures Contains(x + tail, "تن") && !Contains(x + tail, "کیلو") && !Contains(x + tail, "kg")
  {
    LabelFound(x, tail, "تن");
    MissingIn(x, tail, "کیلو", 'ک');
    MissingIn(x, tail, "kg", 'k');
  }

  /** A whole figure in tons, whatever unit is picked: thousands of tons are kilograms. */
  lemma WholeTonsReadBack(n: nat, unit: WeightUnit)
    ensures ReadWeight(FaNumber(n) + " تن", unit) == if n == 0 then None else Carried(if n >= 1000 then (n + 5) / 10 else 100 * n)
  {
    DecimalReadsBack(n);
    TonsFound(Decimal(n), " تن");
    ShownWeight(n, " تن", unit);
  }

  /** A whole figure in kilograms, whatever unit is picked. */
  lemma WholeKilosReadBack(n: nat, unit: WeightUnit)
    ensures ReadWeight(FaNumber(n) + " کیلوگرم", unit) == if n == 0 then None else Carried((n + 5) / 10)
  {
    WordFound("کیلو", "گرم", " کیلوگرم");
    FoundIn(Decimal(n), " کیلوگرم", "کیلو");
    ShownWeight(n, " کیلوگرم", unit);
  }

  /** A bare figure is in the unit picked, but for tons past what a truck carries: those are kilograms. */
  lemma BareWeightReadsBack(n: nat, unit: WeightUnit)
    ensures ReadWeight(FaNumber(n), unit)
         == if n == 0 then None else Carried(if unit == Kilos || n > 200 then (n + 5) / 10 else 100 * n)
  {
    BareWeight(n, unit, "");
  }

  lemma BareWeight(n: nat, unit: WeightUnit, none: string)
    requires none == ""
    ensures ReadWeight(FaNumber(n), unit)
         == if n == 0 then None else Carried(if unit == Kilos || n > 200 then (n + 5) / 10 else 100 * n)
  {
    DecimalReadsBack(n);
    assert FaNumber(n) + none == FaNumber(n) && Decimal(n) + none == Decimal(n);
    ShownWeight(n, none, unit);
    Missing(Decimal(n), "کیلو", 'ک');
    Missing(Decimal(n), "kg", 'k');
    Missing(Decimal(n), "تن", 'ت');
    Missing(Decimal(n), "ton", 't');
  }

  /** The digits behind the decimal point of a number of hundredths, without a zero at the end. */
  function FractionDigits(hundredths: nat): string
    requires hundredths < 100
  {
    if hundredths == 0 then ""
    else if hundredths % 10 == 0 then [LatinDigit(hundredths / 10)]
    else [LatinDigit(hundredths / 10), LatinDigit(hundredths % 10)]
  }

  /** faNumber of a weight, which may have decimals. */
  function FaWeight(hundredths: nat): string {
    var fraction := FractionDigits(hundredths % 100);
    var grouped := Separated(Decimal(hundredths / 100), FA_SEP);
    ToPersian(if fraction == "" then grouped else grouped + [FA_DOT] + fraction)
  }

  /** A weight as a fare's line shows it. */
  function TonsText(hundredths: nat): string {
    FaWeight(hundredths) + " تن"
  }

  lemma {:induction false} ShortRun(run: string, sep: char)
    requires |run| <= 3
    ensures Separated(run, sep) == run
  {
    if run != "" {
      ShortRun(run[1..], sep);
      assert run == [run[0]] + run[1..];
    }
  }

  lemma {:induction false} DigitsOf(n: nat, k: nat)
    requires n < Pow10(k) && k > 0
    ensures |Decimal(n)| <= k
    decreases k
  {
    if n >= 10 {
      assert Pow10(k) == 10 * Pow10(k - 1);
      DigitsOf(n / 10, k - 1);
    }
  }

  lemma FractionReadsBack(f: nat)
    requires f < 100
    ensures AllLatin(FractionDigits(f)) && |FractionDigits(f)| <= 2
    ensures NatOf(FractionDigits(f)) as real / Pow10(|FractionDigits(f)|) as real == f as real / 100.0
  {
    var d := FractionDigits(f);
    assert Pow10(0) == 1 && Pow10(1) == 10 && Pow10(2) == 100;
    if |d| == 1 {
      assert d[..0] == "";
    } else if |d| == 2 {
      assert d[..1] == [d[0]] && [d[0]][..0] == "";
      assert NatOf([d[0]]) == f / 10;
      assert NatOf(d) == 10 * (f / 10) + f % 10 == f;
    }
  }

  /** The shown weight as its reader sees it. */
  function Seen(h: nat): string {
    Decimal(h / 100) + (if h % 100 == 0 then "" else "." + FractionDigits(h % 100))
  }

  lemma FigureWithFraction(w: string, d: string, tail: string)
    requires w != "" && d != "" && AllDigits(w) && AllDigits(d) && !StartsWithDigit(tail)
    ensures FirstFigure(w + ("." + (d + tail))) == Some(Figure(w, d, tail))
  {
    var rest := "." + (d + tail);
    RunOf(w, rest);
    RunOf(d, tail);
    assert (w + rest)[..|w|] == w && (w + rest)[|w|..] == rest;
    assert rest[1..] == d + tail && (d + tail)[..|d|] == d && (d + tail)[|d|..] == tail;
  }

  lemma ShortDecimal(n: nat)
    requires n < 1000
    ensures Separated(Decimal(n), FA_SEP) == Decimal(n)
  {
    assert Pow10(3) == 1000;
    DigitsOf(n, 3);
    ShortRun(Decimal(n), FA_SEP);
  }

  lemma ShownHundredths(h: nat, tail: string)
    requires h <= MAX_WEIGHT && PlainWeightTail(tail)
    ensures WeightText(FaWeight(h) + tail) == Seen(h) + tail
  {
    DecimalReadsBack(h / 100);
    ShortDecimal(h / 100);
    FractionReadsBack(h % 100);
    ShownFraction(Decimal(h / 100), FractionDigits(h % 100), tail);
  }

  lemma ShownInLatinWith(shown: string, tail: string)
    requires PlainWeightTail(tail) && forall i :: 0 <= i < |shown| ==> IsLatin(shown[i]) || !IsDigit(shown[i])
    ensures Latin(ToPersian(shown) + tail) == shown + tail
  {
    LatinUndoesPersian(shown);
    MapConcat(ToPersian(shown), tail, LatinChar);
    MapFixed(tail, LatinChar);
  }

  lemma ShownFraction(w: string, d: string, tail: string)
    requires AllLatin(w) && AllLatin(d) && PlainWeightTail(tail)
    ensures WeightText(ToPersian(if d == "" then w else w + [FA_DOT] + d) + tail) == w + (if d == "" then "" else "." + d) + tail
  {
    ShownInLatinWith(if d == "" then w else w + [FA_DOT] + d, tail);
    SeenText(w, d, tail);
    if d != "" { assert w + "." + d == w + ("." + d); } else { assert w + "" == w; }
  }

  lemma SeenText(w: string, d: string, tail: string)
    requires AllLatin(w) && AllLatin(d) && PlainWeightTail(tail)
    ensures Strip(Dots((if d == "" then w else w + [FA_DOT] + d) + tail), false) == (if d == "" then w else w + "." + d) + tail
  {
    var s := if d == "" then w else w + [FA_DOT] + d;
    MapFixed(w, DotChar);
    MapFixed(d, DotChar);
    MapFixed(tail, DotChar);
    MapConcat(s, tail, DotChar);
    MapConcat(w + [FA_DOT], d, DotChar);
    MapConcat(w, [FA_DOT], DotChar);
    assert MapChars([FA_DOT], DotChar) == ".";
    StripNothing((if d == "" then w else w + "." + d) + tail, false);
  }

  lemma FractionTyped(w: string, d: string, tail: string, text: string)
    requires w != "" && d != "" && AllDigits(w) && AllDigits(d) && !StartsWithDigit(tail) && text == w + ("." + (d + tail))
    ensures TypedWeight(text) == NatOf(w) as real + NatOf(d) as real / Pow10(|d|) as real
  {
    FigureWithFraction(w, d, tail);
  }

  lemma WholeTyped(w: string, tail: string, text: string)
    requires w != "" && AllDigits(w) && PlainWeightTail(tail) && text == w + tail
    ensures TypedWeight(text) == NatOf(w) as real
  {
    FigureFirst(w, tail);
  }

  lemma SeenWeight(h: nat, tail: string)
    requires PlainWeightTail(tail)
    ensures TypedWeight(Seen(h) + tail) == h as real / 100.0
  {
    var w, d := Decimal(h / 100), FractionDigits(h % 100);
    DecimalReadsBack(h / 100);
    FractionReadsBack(h % 100);
    if d == "" {
      assert Seen(h) == w;
      WholeTyped(w, tail, Seen(h) + tail);
    } else {
      assert Seen(h) + tail == w + ("." + (d + tail));
      FractionTyped(w, d, tail, Seen(h) + tail);
    }
  }

  lemma SeenTons(h: nat, tail: string)
    requires tail == " تن"
    ensures Contains(Seen(h) + tail, "تن") && !Contains(Seen(h) + tail, "کیلو") && !Contains(Seen(h) + tail, "kg")
  {
    DecimalReadsBack(h / 100);
    FractionReadsBack(h % 100);
    LabelFound(Seen(h), tail, "تن");
    Missing(Seen(h) + tail, "کیلو", 'ک');
    Missing(Seen(h) + tail, "kg", 'k');
  }

  /** Every weight a truck carries, shown in tons with its decimals, reads back exactly, whatever unit is picked. */
  lemma ShownWeightReadsBack(h: nat, unit: WeightUnit)
    requires 0 < h <= MAX_WEIGHT
    ensures ReadWeight(TonsText(h), unit) == Some(h)
  {
    ShownHundredths(h, " تن");
    SeenWeight(h, " تن");
    SeenTons(h, " تن");
    InTons(TonsText(h), Seen(h) + " تن", h, unit);
  }

  lemma InTons(text: string, clean: string, h: nat, unit: WeightUnit)
    requires text != "" && WeightText(text) == clean && TypedWeight(clean) == h as real / 100.0 && 0 < h <= MAX_WEIGHT
    requires Contains(clean, "تن") && !Contains(clean, "کیلو") && !Contains(clean, "kg")
    ensures ReadWeight(text, unit) == Some(h)
  {
    var tons := h as real / 100.0;
    assert 0.0 < tons <= 200.0 && tons * 100.0 == h as real;
    assert !InKilos(clean, tons, unit);
    assert Round(h as real) == h;
  }

  //#endregion

  //#region A load

  lemma {:induction false} NoHer(s: string)
    requires forall i :: 0 <= i < |s| - 1 ==> !(s[i] == 'ه' && s[i + 1] == 'ر')
    ensures !Matches(s, "هر", "تن")
  {
    NotHerAt(s, "هر");
    if s != "" {
      forall i | 0 <= i < |s[1..]| - 1 ensures !(s[1..][i] == 'ه' && s[1..][i + 1] == 'ر') {
        assert !(s[i + 1] == 'ه' && s[i + 2] == 'ر');
      }
      NoHer(s[1..]);
    }
  }

  lemma NotHerAt(s: string, her: string)
    requires her == "هر" && (|s| > 1 ==> !(s[0] == 'ه' && s[1] == 'ر'))
    ensures !MatchesAt(s, her, "تن")
  {
    assert her[1..] == "ر";
    if s != "" && Lower(s[0]) == 'ه' {
      assert !MatchesAt(s[1..], "ر", "تن");
    }
  }

  lemma UnitSaysNothing(unit: string, currency: Currency)
    requires unit == UnitText(currency)
    ensures !Matches(unit, "تنی", "") && !Matches(unit, "هر", "تن") && !Matches(unit, "per", "ton")
  {
    UnitIsLiteral(currency);
    MissingFirst(unit, "تنی", "", if currency == Toman then 'ی' else 'ت');
    NoHer(unit);
    MissingFirst(unit, "per", "ton", 'p');
  }

  lemma MoneySaysNoTon(n: nat, currency: Currency)
    ensures !SaysPerTon(MoneyText(n, currency))
  {
    var unit := UnitText(currency);
    UnitSaysNothing(unit, currency);
    FigureIsDigits(n);
    assert MoneyText(n, currency) == FaNumber(n) + unit;
    MatchesBehind(FaNumber(n), unit, "تنی", "");
    MatchesBehind(FaNumber(n), unit, "هر", "تن");
    MatchesBehind(FaNumber(n), unit, "per", "ton");
  }

  lemma FigureIsDigits(n: nat)
    ensures OnlyDigitsAndSeps(FaNumber(n))
  {
    DecimalReadsBack(n);
    SeparatedChars(Decimal(n), FA_SEP);
    MapAt(Separated(Decimal(n), FA_SEP), PersianChar);
  }

  /** A load written with the texts of a fare gives the form that fare: its total, currency and weight. */
  lemma ListingReadsBack(n: nat, currency: Currency, h: nat)
    requires 0 < n <= MAX_SAFE && 0 < h <= MAX_WEIGHT
    ensures DefaultsFromListing(MoneyText(n, currency), TonsText(h))
         == FareDefaults.FareDefaults(Some(Total), Some(n), currency, Some(h))
  {
    ShownAmountReadsBack(n, currency);
    ShownWeightReadsBack(h, Tons);
    MoneySaysNoTon(n, currency);
  }

  //#endregion
}
