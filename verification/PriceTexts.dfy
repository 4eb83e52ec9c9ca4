/**
 * Prices as people write them, read by readAmount and the company's form: by the ton, with decimals and a scale word, in
 * number words, and with a currency's sign or code. Each statement spells the words out.
 */
module PriceTexts {
  import opened Options
  import opened DigitGroups
  import opened Amounts
  import opened CargoPrice
  import opened TripFare
  import opened FareTexts
  import NumberWords

  //#region A text before the figure

  /** Nothing in it is rewritten or taken for the figure. */
  predicate Quiet(front: string) {
    && front != "" && !IsSpace(front[0])
    && forall i :: 0 <= i < |front| ==> !IsDigit(front[i]) && !IsSepFor(front[i], true) && DotChar(front[i]) == front[i]
  }

  lemma {:induction false} FigureBehind(front: string, s: string)
    requires forall i :: 0 <= i < |front| ==> !IsDigit(front[i])
    ensures FirstFigure(front + s) == FirstFigure(s)
  {
    if front == "" {
      assert front + s == s;
    } else {
      FigureBehind(front[1..], s);
      assert (front + s)[1..] == front[1..] + s;
    }
  }

  lemma {:induction false} StripBehind(front: string, s: string, fa: bool)
    requires forall i :: 0 <= i < |front| ==> !IsSepFor(front[i], fa)
    ensures Strip(front + s, fa) == front + Strip(s, fa)
  {
    if front == "" {
      assert front + s == s;
    } else {
      StripBehind(front[1..], s, fa);
      assert (front + s)[1..] == front[1..] + s;
      assert [front[0]] + (front[1..] + Strip(s, fa)) == front + Strip(s, fa);
    }
  }

  /** A price behind such a text, as its reader sees it. */
  lemma FrontPriceText(front: string, n: nat, tail: string, shown: string)
    requires Quiet(front) && PlainTail(tail) && shown == FaNumber(n) + tail
    ensures PriceText(front + shown) == front + (Decimal(n) + tail)
  {
    ShownPriceText(n, tail);
    DecimalReadsBack(n);
    MapFixed(front, LatinChar);
    MapConcat(front, shown, LatinChar);
    StripSeparated(Decimal(n), FA_SEP, tail, true);
    StripNothing(tail, true);
    StripBehind(front, Latin(shown), true);
    var seen := front + (Decimal(n) + tail);
    MapFixed(seen, DotChar);
    assert seen[0] == front[0] && seen[|seen| - 1] == tail[|tail| - 1];
  }

  //#endregion

  //#region By the ton

  predicate PerTonFront(front: string) {
    front == "تنی " || front == "هر تن " || front == "per ton "
  }

  /** No currency's word starts in it and goes on behind a figure. */
  predicate NamesNoCurrency(front: string) {
    && (forall c :: c in ['د', 'و', 'ل', '$', '€', 'u', 'a', 'y'] ==> Lacks(front, c)) && (Lacks(front, 'ی') || Lacks(front, 'ر'))
  }

  lemma PerTonFronts(front: string)
    requires PerTonFront(front)
    ensures Quiet(front) && NamesNoCurrency(front)
  {
    if front == "تنی " { TaniFront(front); } else if front == "هر تن " { HarTonFront(front); } else { PerFront(front); }
  }

  lemma TaniFront(front: string)
    requires front == "تنی "
    ensures Quiet(front) && NamesNoCurrency(front)
  {
    assert Lacks(front, 'ر');
  }

  lemma HarTonFront(front: string)
    requires front == "هر تن "
    ensures Quiet(front) && NamesNoCurrency(front)
  {
    assert Lacks(front, 'ی');
  }

  lemma PerFront(front: string)
    requires front == "per ton "
    ensures Quiet(front) && NamesNoCurrency(front)
  {
    assert Lacks(front, 'ی');
  }

  lemma MissingThere(front: string, n: nat, unit: string, p: string, c: char)
    requires c in p && !IsLatin(c) && Lacks(front, c) && Lacks(unit, c)
    ensures !Contains(front + (Decimal(n) + unit), p)
  {
    DecimalReadsBack(n);
    Missing(front + (Decimal(n) + unit), p, c);
  }

  lemma NoDollarThere(front: string, n: nat, unit: string, c: char)
    requires NamesNoCurrency(front) && c in "دلار" && !IsLatin(c)
    requires Lacks(front, c) && Lacks(unit, c) && Lacks(unit, '$') && Lacks(unit, 'u')
    ensures var text := front + (Decimal(n) + unit); !Contains(text, "دلار") && !Contains(text, "$") && !Contains(text, "usd")
  {
    MissingThere(front, n, unit, "دلار", c);
    MissingThere(front, n, unit, "$", '$');
    MissingThere(front, n, unit, "usd", 'u');
  }

  lemma NoEuroThere(front: string, n: nat, unit: string, c: char)
    requires NamesNoCurrency(front) && c in "یورو" && !IsLatin(c)
    requires Lacks(front, c) && Lacks(unit, c) && Lacks(unit, '€') && Lacks(unit, 'u')
    ensures var text := front + (Decimal(n) + unit); !Contains(text, "یورو") && !Contains(text, "€") && !Contains(text, "eur")
  {
    MissingThere(front, n, unit, "یورو", c);
    MissingThere(front, n, unit, "€", '€');
    MissingThere(front, n, unit, "eur", 'u');
  }

  lemma NoDirhamThere(front: string, n: nat, unit: string)
    requires NamesNoCurrency(front) && Lacks(unit, 'د') && Lacks(unit, 'a')
    ensures var text := front + (Decimal(n) + unit); !Contains(text, "درهم") && !Contains(text, "aed")
  {
    MissingThere(front, n, unit, "درهم", 'د');
    MissingThere(front, n, unit, "aed", 'a');
  }

  lemma NoLiraThere(front: string, n: nat, unit: string)
    requires NamesNoCurrency(front) && Lacks(unit, 'ل') && Lacks(unit, 'y')
    ensures var text := front + (Decimal(n) + unit); !Contains(text, "لیر") && !Contains(text, "try")
  {
    MissingThere(front, n, unit, "لیر", 'ل');
    MissingThere(front, n, unit, "try", 'y');
  }

  lemma TomanThere(front: string, n: nat, unit: string)
    requires NamesNoCurrency(front) && unit == " تومان"
    ensures CurrencyOf(front + (Decimal(n) + unit)) == Toman && !Contains(front + (Decimal(n) + unit), "ریال")
  {
    NoDollarThere(front, n, unit, 'د');
    NoEuroThere(front, n, unit, if Lacks(front, 'ی') then 'ی' else 'ر');
    NoDirhamThere(front, n, unit);
    NoLiraThere(front, n, unit);
    MissingThere(front, n, unit, "ریال", 'ل');
  }

  lemma LabelThere(front: string, n: nat, unit: string, word: string)
    requires unit == " " + word && forall i :: 0 <= i < |word| ==> Lower(word[i]) == word[i]
    ensures Contains(front + (Decimal(n) + unit), word)
  {
    assert front + (Decimal(n) + unit) == (front + Decimal(n)) + unit;
    LabelFound(front + Decimal(n), unit, word);
  }

  lemma EuroThere(front: string, n: nat, unit: string)
    requires NamesNoCurrency(front) && unit == " یورو"
    ensures CurrencyOf(front + (Decimal(n) + unit)) == Euro
  {
    NoDollarThere(front, n, unit, 'د');
    LabelThere(front, n, unit, "یورو");
  }

  lemma DirhamThere(front: string, n: nat, unit: string)
    requires NamesNoCurrency(front) && unit == " درهم"
    ensures CurrencyOf(front + (Decimal(n) + unit)) == Dirham
  {
    NoDollarThere(front, n, unit, 'ل');
    NoEuroThere(front, n, unit, 'و');
    LabelThere(front, n, unit, "درهم");
  }

  lemma LiraThere(front: string, n: nat, unit: string)
    requires NamesNoCurrency(front) && unit == " لیر"
    ensures CurrencyOf(front + (Decimal(n) + unit)) == Lira
  {
    NoDollarThere(front, n, unit, 'د');
    NoEuroThere(front, n, unit, 'و');
    NoDirhamThere(front, n, unit);
    LabelThere(front, n, unit, "لیر");
  }

  lemma CurrencyBehind(front: string, n: nat, currency: Currency, unit: string, text: string)
    requires NamesNoCurrency(front) && unit == UnitText(currency) && text == front + (Decimal(n) + unit)
    ensures CurrencyOf(text) == currency
    ensures currency == Toman ==> Contains(text, "تومان") && !Contains(text, "ریال")
  {
    UnitIsLiteral(currency);
    match currency
    case Toman =>
      TomanThere(front, n, unit);
      LabelThere(front, n, unit, "تومان");
    case Dollar => LabelThere(front, n, unit, "دلار");
    case Euro => EuroThere(front, n, unit);
    case Dirham => DirhamThere(front, n, unit);
    case Lira => LiraThere(front, n, unit);
  }

  lemma PriceBehind(front: string, n: nat, currency: Currency, unit: string, text: string)
    requires n > 0 && Quiet(front) && NamesNoCurrency(front) && unit == UnitText(currency) && text == front + (Decimal(n) + unit)
    ensures ReadPrice(text) == Some(Price(n, currency))
  {
    UnitIsPlain(currency);
    UnitHasNoScale(currency);
    DecimalReadsBack(n);
    FigureBehind(front, Decimal(n) + unit);
    FigureFirst(Decimal(n), unit);
    CurrencyBehind(front, n, currency, unit, text);
    WholeAmount(n, currency, 1, Contains(text, "تومان"), Contains(text, "ریال"));
  }

  lemma AmountBehind(front: string, n: nat, currency: Currency)
    requires 0 < n <= MAX_SAFE && Quiet(front) && NamesNoCurrency(front)
    ensures ReadAmount(front + MoneyText(n, currency)) == Some(Price(n, currency))
  {
    var unit := UnitText(currency);
    var shown := FaNumber(n) + unit;
    assert MoneyText(n, currency) == shown;
    UnitIsPlain(currency);
    FrontPriceText(front, n, unit, shown);
    PriceBehind(front, n, currency, unit, front + (Decimal(n) + unit));
    BareNot(front, FaNumber(n), unit, front + shown);
    ReadsItsPrice(front + shown, Price(n, currency));
  }

  lemma BareNot(front: string, figure: string, unit: string, text: string)
    requires PlainTail(unit) && text == front + (figure + unit)
    ensures text != "" && !AllDigits(Compact(Latin(text)))
  {
    assert text == (front + figure) + unit;
    UnitIsNoBareNumber(front + figure, unit, text);
  }

  lemma {:induction false} AtFront(p: string, x: string)
    requires forall i :: 0 <= i < |p| ==> Lower(p[i]) == p[i]
    ensures At(p + x, p)
  {
    if p != "" {
      AtFront(p[1..], x);
      assert (p + x)[1..] == p[1..] + x;
    }
  }

  lemma {:induction false} SpacedFront(a: string, b: string, x: string)
    requires forall i :: 0 <= i < |a| ==> Lower(a[i]) == a[i]
    requires forall i :: 0 <= i < |b| ==> Lower(b[i]) == b[i]
    ensures MatchesAt(a + (" " + (b + x)), a, b)
  {
    if a == "" {
      AtFront(b, x);
      assert a + (" " + (b + x)) == " " + (b + x) && (" " + (b + x))[1..] == b + x;
    } else {
      SpacedFront(a[1..], b, x);
      assert (a + (" " + (b + x)))[1..] == a[1..] + (" " + (b + x));
    }
  }

  lemma SaysSo(front: string, x: string)
    requires PerTonFront(front)
    ensures SaysPerTon(front + x)
  {
    if front == "تنی " {
      var p := "تنی";
      PrefixFound(p, " " + x);
      assert front + x == p + (" " + x);
    } else if front == "هر تن " {
      Spaced(front, "هر", "تن", x);
    } else {
      Spaced(front, "per", "ton", x);
    }
  }

  lemma Spaced(front: string, a: string, b: string, x: string)
    requires front == a + " " + b + " "
    requires forall i :: 0 <= i < |a| ==> Lower(a[i]) == a[i]
    requires forall i :: 0 <= i < |b| ==> Lower(b[i]) == b[i]
    ensures Matches(front + x, a, b)
  {
    SpacedFront(a, b, " " + x);
    assert front + x == a + (" " + (b + (" " + x)));
  }

  /** A load's price by the ton, in any of the three ways to say so, gives the form that rate by the ton. */
  lemma PerTonListingReadsBack(front: string, n: nat, currency: Currency, h: nat)
    requires PerTonFront(front) && 0 < n <= MAX_SAFE && 0 < h <= MAX_WEIGHT
    ensures DefaultsFromListing(front + MoneyText(n, currency), TonsText(h))
         == FareDefaults.FareDefaults(Some(PerTon), Some(n), currency, Some(h))
  {
    PerTonFronts(front);
    AmountBehind(front, n, currency);
    SaysSo(front, MoneyText(n, currency));
    ShownWeightReadsBack(h, Tons);
  }

  //#endregion

  //#region Scale words

  /** The ways to write a scale, the common misspellings with them. */
  predicate ScaleWord(word: string, scale: int) {
    || (scale == 1000 && (word == "هزار" || word == "k" || word == "K"))
    || (scale == 1_000_000 && (word == "میلیون" || word == "ملیون"))
    || (scale == 1_000_000_000 && (word == "میلیارد" || word == "ملیارد"))
  }

  /** A figure's or a number's text: none of a currency's word, or of a scale's, in it. */
  predicate CalmFront(x: string) {
    && x != "" && Calm(x) && Lacks(x, 'م')
    && forall i :: 0 <= i < |x| ==> !('a' <= Lower(x[i]) <= 'z') && x[i] != '$' && x[i] != '€' && x[i] != '_'
  }

  /** What stands behind it: nothing there is rewritten, and no currency but the toman is named. */
  predicate CalmTail(t: string) {
    && |t| >= 2 && t[0] == ' ' && !IsSpace(t[|t| - 1]) && Calm(t)
    && Lacks(t, '$') && Lacks(t, 'u') && Lacks(t, '€') && Lacks(t, 'e') && Lacks(t, 'a') && Lacks(t, 'y')
    && forall i :: 0 <= i < |t| ==> !IsDigit(t[i]) && !IsSepFor(t[i], true) && DotChar(t[i]) == t[i] && t[i] != '.'
  }

  lemma CalmJoined(x: string, t: string)
    requires CalmFront(x) && CalmTail(t)
    ensures Calm(x + t)
  {
    forall i | 0 <= i < |x + t| - 1 ensures !BadPair((x + t)[i], (x + t)[i + 1]) {
      if i < |x| - 1 {
        assert !BadPair(x[i], x[i + 1]);
      } else if i >= |x| {
        assert !BadPair(t[i - |x|], t[i - |x| + 1]);
      }
    }
  }

  lemma TomanNamed(x: string, t: string)
    requires CalmFront(x) && CalmTail(t)
    ensures CurrencyOf(x + t) == Toman && !Contains(x + t, "ریال")
  {
    CalmJoined(x, t);
    CalmLacks(x + t, "دلار", 0);
    Missing(x + t, "$", '$');
    Missing(x + t, "usd", 'u');
    CalmLacks(x + t, "یورو", 2);
    Missing(x + t, "€", '€');
    Missing(x + t, "eur", 'e');
    CalmLacks(x + t, "درهم", 0);
    Missing(x + t, "aed", 'a');
    CalmLacks(x + t, "لیر", 1);
    Missing(x + t, "try", 'y');
    CalmLacks(x + t, "ریال", 0);
  }

  lemma {:induction false} StartsBehind(x: string, t: string, p: string)
    requires p != "" && Lacks(x, p[0])
    ensures Contains(x + t, p) <==> Contains(t, p)
  {
    if x == "" {
      assert x + t == t;
    } else {
      StartsBehind(x[1..], t, p);
      assert (x + t)[1..] == x[1..] + t;
    }
  }

  lemma NoMOf(s: string)
    requires forall i :: 0 <= i < |s| - 1 ==> !(s[i] == 'م' && IsWordChar(s[i + 1]))
    ensures !HasM(s)
  {
    HasMExactly(s);
  }

  lemma {:induction false} KFound(x: string, t: string)
    requires HasK(t)
    ensures HasK(x + t)
  {
    if x == "" {
      assert x + t == t;
    } else {
      KFound(x[1..], t);
      assert (x + t)[1..] == x[1..] + t;
    }
  }

  predicate CalmWord(p: string) {
    && p != "" && Calm(p) && forall i :: 0 <= i < |p| ==> IsCalm(p[i])
  }

  predicate IsCalm(c: char) {
    && !IsDigit(c) && !IsSepFor(c, true) && DotChar(c) == c && c != '.' && !IsSpace(c)
    && (IsWordChar(c) ==> Lower(c) == 'k') && c != '$' && c != '€'
  }

  lemma ThousandIsCalm(word: string)
    requires word == "هزار" || word == "k" || word == "K"
    ensures CalmWord(word) && Lacks(word, 'د') && Lacks(word, 'ی')
    ensures |word| == 1 || forall i :: 0 <= i < |word| ==> !IsWordChar(word[i])
  {
  }

  lemma MillionIsCalm(word: string)
    requires word == "میلیون" || word == "ملیون"
    ensures CalmWord(word) && Lacks(word, 'د') && forall i :: 0 <= i < |word| ==> !IsWordChar(word[i])
  {
  }

  lemma MilliardIsCalm(word: string)
    requires word == "میلیارد" || word == "ملیارد"
    ensures CalmWord(word) && forall i :: 0 <= i < |word| ==> !IsWordChar(word[i])
  {
  }

  lemma ScaleIsCalm(word: string, scale: int)
    requires ScaleWord(word, scale)
    ensures CalmWord(word)
    ensures scale <= 1_000_000 ==> Lacks(word, 'د')
    ensures scale <= 1000 ==> Lacks(word, 'ی')
    ensures |word| == 1 || forall i :: 0 <= i < |word| ==> !IsWordChar(word[i])
  {
    if scale == 1000 { ThousandIsCalm(word); } else if scale == 1_000_000 { MillionIsCalm(word); } else { MilliardIsCalm(word); }
  }

  lemma CalmUnit(unit: string)
    requires unit == "تومان"
    ensures CalmWord(unit) && Lacks(unit, 'د') && Lacks(unit, 'ی') && forall i :: 0 <= i < |unit| ==> !IsWordChar(unit[i])
  {
  }

  lemma CalmWords(a: string, b: string, tail: string)
    requires CalmWord(a) && CalmWord(b) && tail == " " + a + " " + b
    ensures CalmTail(tail)
  {
    forall i | 0 <= i < |tail| - 1 ensures !BadPair(tail[i], tail[i + 1]) {
      if 0 < i < |a| {
        assert !BadPair(a[i - 1], a[i]);
      } else if i > |a| + 1 {
        assert !BadPair(b[i - |a| - 2], b[i - |a| - 1]);
      }
    }
    forall i | 0 <= i < |tail| ensures tail[i] == ' ' || IsCalm(tail[i]) {
      if i > |a| + 1 { assert tail[i] == b[i - |a| - 2]; } else if 0 < i <= |a| { assert tail[i] == a[i - 1]; }
    }
  }

  lemma UnitTail(word: string, scale: int, tail: string)
    requires ScaleWord(word, scale) && tail == " " + word + " تومان"
    ensures CalmTail(tail) && Contains(tail, "تومان")
    ensures forall i :: 0 <= i < |tail| - 1 ==> !(tail[i] == 'م' && IsWordChar(tail[i + 1]))
    ensures scale <= 1_000_000 ==> Lacks(tail, 'د')
    ensures scale <= 1000 ==> Lacks(tail, 'ی')
  {
    var unit := "تومان";
    ScaleIsCalm(word, scale);
    CalmUnit(unit);
    assert " تومان" == " " + unit;
    assert tail == " " + word + " " + unit;
    CalmWords(word, unit, tail);
    LabelFound(" " + word, " " + unit, unit);
    assert tail == (" " + word) + (" " + unit);
    NoWordBehindM(word, unit, tail);
  }

  lemma NoWordBehindM(word: string, unit: string, tail: string)
    requires tail == " " + word + " " + unit && (|word| == 1 || forall i :: 0 <= i < |word| ==> !IsWordChar(word[i]))
    requires forall i :: 0 <= i < |unit| ==> !IsWordChar(unit[i])
    ensures forall i :: 0 <= i < |tail| - 1 ==> !(tail[i] == 'م' && IsWordChar(tail[i + 1]))
  {
  }

  lemma TailSaysScale(word: string, scale: int, tail: string)
    requires ScaleWord(word, scale) && tail == " " + word + " تومان"
    ensures scale == 1000 ==> Contains(tail, "هزار") || HasK(tail)
    ensures scale == 1_000_000 ==> Contains(tail, "میلیون") || Contains(tail, "ملیون")
    ensures scale == 1_000_000_000 ==> Contains(tail, "میلیارد") || Contains(tail, "ملیارد")
  {
    if word == "k" || word == "K" {
      assert tail[1..] == word + " تومان" && (word + " تومان")[1..] == " تومان";
      assert Lower(tail[1]) == 'k' && !WordFollows(" تومان");
      assert HasK(tail[1..]);
    } else {
      WordFound(word, " تومان", tail);
    }
  }

  /** The scale is read, with or without the number's own words before its word. */
  lemma ScaleNamed(x: string, word: string, scale: int, tail: string)
    requires ScaleWord(word, scale) && tail == " " + word + " تومان" && (x == "" || CalmFront(x))
    ensures ScaleOf(x + tail) == scale
  {
    UnitTail(word, scale, tail);
    TailSaysScale(word, scale, tail);
    StartsBehind(x, tail, "میلیارد");
    StartsBehind(x, tail, "ملیارد");
    StartsBehind(x, tail, "میلیون");
    StartsBehind(x, tail, "ملیون");
    if scale < 1_000_000_000 {
      Missing(tail, "میلیارد", 'د');
      Missing(tail, "ملیارد", 'د');
    }
    if scale == 1000 {
      Missing(tail, "میلیون", 'ی');
      Missing(tail, "ملیون", 'ی');
      NoMOf(x + tail);
      if HasK(tail) { KFound(x, tail); } else { FoundIn(x, tail, "هزار"); }
    }
  }

  //#endregion

  //#region Decimals with a scale word

  /** The decimal part as it is written, with the Persian point. */
  function PointAnd(d: string): string {
    if d == "" then "" else [FA_DOT] + d
  }

  lemma ShownLatin(w: string, d: string, tail: string)
    requires AllLatin(w) && AllLatin(d) && CalmTail(tail)
    ensures Latin(ToPersian(Separated(w, FA_SEP) + PointAnd(d)) + tail) == Separated(w, FA_SEP) + (PointAnd(d) + tail)
  {
    SeparatedChars(w, FA_SEP);
    LatinBehind(Separated(w, FA_SEP), PointAnd(d), tail);
  }

  lemma LatinBehind(a: string, b: string, tail: string)
    requires CalmTail(tail)
    requires (forall i :: 0 <= i < |a| ==> IsLatin(a[i]) || !IsDigit(a[i])) && forall i :: 0 <= i < |b| ==> IsLatin(b[i]) || !IsDigit(b[i])
    ensures Latin(ToPersian(a + b) + tail) == a + (b + tail)
  {
    LatinUndoesPersian(a + b);
    MapConcat(ToPersian(a + b), tail, LatinChar);
    MapFixed(tail, LatinChar);
  }

  lemma ShownStripped(w: string, d: string, tail: string)
    requires AllLatin(w) && AllLatin(d) && CalmTail(tail)
    ensures Strip(Separated(w, FA_SEP) + (PointAnd(d) + tail), true) == w + (PointAnd(d) + tail)
  {
    StripSeparated(w, FA_SEP, PointAnd(d) + tail, true);
    StripNothing(PointAnd(d) + tail, true);
  }

  lemma FaWeightIs(h: nat)
    ensures FaWeight(h) == ToPersian(Separated(Decimal(h / 100), FA_SEP) + PointAnd(FractionDigits(h % 100)))
  {
    var grouped, d := Separated(Decimal(h / 100), FA_SEP), FractionDigits(h % 100);
    if d == "" { assert grouped + "" == grouped; } else { assert grouped + [FA_DOT] + d == grouped + ([FA_DOT] + d); }
  }

  lemma SeenIs(h: nat)
    ensures Seen(h) == Decimal(h / 100) + (if FractionDigits(h % 100) == "" then "" else "." + FractionDigits(h % 100))
  {
  }

  /** A price with decimals as its reader sees it. */
  lemma DecimalPriceText(h: nat, tail: string)
    requires CalmTail(tail)
    ensures PriceText(FaWeight(h) + tail) == Seen(h) + tail
  {
    var w, d := Decimal(h / 100), FractionDigits(h % 100);
    DecimalReadsBack(h / 100);
    FractionReadsBack(h % 100);
    FaWeightIs(h);
    ShownLatin(w, d, tail);
    ShownStripped(w, d, tail);
    DotsRead(w, d, tail);
    SeenIs(h);
    SeenIsCalm(h);
    JoinedEnds(Seen(h), tail);
    TrimmedAlready(Seen(h) + tail);
  }

  lemma DotsRead(w: string, d: string, tail: string)
    requires AllLatin(w) && AllLatin(d) && CalmTail(tail)
    ensures Dots(w + (PointAnd(d) + tail)) == w + (if d == "" then "" else "." + d) + tail
  {
    MapFixed(w, DotChar);
    MapFixed(d, DotChar);
    MapFixed(tail, DotChar);
    MapConcat(w, PointAnd(d) + tail, DotChar);
    MapConcat(PointAnd(d), tail, DotChar);
    MapConcat([FA_DOT], d, DotChar);
    assert MapChars([FA_DOT], DotChar) == ".";
  }

  lemma TrimmedAlready(s: string)
    requires s != "" && !IsSpace(s[0]) && !IsSpace(s[|s| - 1])
    ensures TrimEnd(TrimStart(s)) == s
  {
  }

  lemma SeenIsCalm(h: nat)
    ensures CalmFront(Seen(h)) && !IsSpace(Seen(h)[0]) && IsLatin(Seen(h)[0])
  {
    DecimalReadsBack(h / 100);
    FractionReadsBack(h % 100);
    assert forall i :: 0 <= i < |Seen(h)| ==> IsLatin(Seen(h)[i]) || Seen(h)[i] == '.';
  }

  lemma SeenFigure(h: nat, tail: string)
    requires CalmTail(tail)
    ensures var f := FirstFigure(Seen(h) + tail);
            f.Some? && f.value.after == tail && FigureValue(f.value) == h as real / 100.0
  {
    var w, d := Decimal(h / 100), FractionDigits(h % 100);
    DecimalReadsBack(h / 100);
    FractionReadsBack(h % 100);
    if d == "" {
      assert Seen(h) == w;
      FigureFirst(w, tail);
    } else {
      assert Seen(h) + tail == w + ("." + (d + tail));
      FigureWithFraction(w, d, tail);
    }
  }

  lemma ScaledHundredths(h: nat, scale: int)
    requires h > 0 && (scale == 1000 || scale == 1_000_000 || scale == 1_000_000_000)
    ensures PriceOf(h as real / 100.0, Toman, scale, true, false) == Some(Price(h * (scale / 100), Toman))
  {
    var part := scale / 100;
    assert scale == 100 * part;
    assert (h as real / 100.0) * (100 * part) as real == h as real * part as real == (h * part) as real;
  }

  lemma TomansRead(x: string, tail: string, scale: int, value: real, price: Price)
    requires CalmFront(x) && CalmTail(tail) && Contains(tail, "تومان") && ScaleOf(tail) == scale
    requires FirstFigure(x + tail).Some? && FirstFigure(x + tail).value.after == tail && FigureValue(FirstFigure(x + tail).value) == value
    requires PriceOf(value, Toman, scale, true, false) == Some(price)
    ensures ReadPrice(x + tail) == Some(price)
  {
    TomanNamed(x, tail);
    FoundIn(x, tail, "تومان");
  }

  lemma DecimalTextReads(h: nat, value: real, scale: int, tail: string, amount: int)
    requires value == h as real / 100.0 && PriceOf(value, Toman, scale, true, false) == Some(Price(amount, Toman)) && 0 < amount <= MAX_SAFE
    requires CalmTail(tail) && Contains(tail, "تومان") && ScaleOf(tail) == scale
    ensures ReadAmount(FaWeight(h) + tail) == Some(Price(amount, Toman))
  {
    SeenIsCalm(h);
    SeenFigure(h, tail);
    TomansRead(Seen(h), tail, scale, value, Price(amount, Toman));
    DecimalPriceText(h, tail);
    NotBare(FaWeight(h), tail);
    assert ParseCargoPrice(FaWeight(h) + tail) == ReadPrice(PriceText(FaWeight(h) + tail));
    ReadsItsPrice(FaWeight(h) + tail, Price(amount, Toman));
  }

  /** Every amount of thousands, millions or milliards with up to two decimals reads back to the toman, in all spellings. */
  lemma DecimalPriceReadsBack(h: nat, word: string, scale: int)
    requires h > 0 && ScaleWord(word, scale) && h * (scale / 100) <= MAX_SAFE
    ensures ReadAmount(FaWeight(h) + (" " + word + " تومان")) == Some(Price(h * (scale / 100), Toman))
  {
    var tail := " " + word + " تومان";
    TailReads(word, scale, tail);
    ScaledHundredths(h, scale);
    DecimalTextReads(h, h as real / 100.0, scale, tail, h * (scale / 100));
  }

  lemma TailReads(word: string, scale: int, tail: string)
    requires ScaleWord(word, scale) && tail == " " + word + " تومان"
    ensures CalmTail(tail) && Contains(tail, "تومان") && ScaleOf(tail) == scale
    ensures scale == 1000 || scale == 1_000_000 || scale == 1_000_000_000
  {
    UnitTail(word, scale, tail);
    ScaleNamed("", word, scale, tail);
    assert "" + tail == tail;
  }

  lemma NotBare(front: string, tail: string)
    requires CalmTail(tail)
    ensures front + tail != "" && !AllDigits(Compact(Latin(front + tail)))
  {
    var text := front + tail;
    MapAt(text, LatinChar);
    assert text[|text| - 1] == tail[|tail| - 1];
    CompactKeeps(Latin(text), |text| - 1);
  }

  //#endregion

  //#region Number words with a scale word or tons

  /** A letter of a number word (of Arabic script, but not the one for million), or the space between two. */
  predicate IsNumberChar(c: char) {
    c == ' ' || ('\U{0621}' <= c <= '\U{064A}' && c != 'م') || '\U{066E}' <= c <= '\U{06D3}'
  }

  /** Two letters side by side that some currency's word, or the kilogram's, has. */
  predicate Spells(a: char, b: char) {
    BadPair(a, b) || (a == 'ک' && b == 'ی')
  }

  predicate NumberText(p: string) {
    && (forall i :: 0 <= i < |p| - 1 ==> !Spells(p[i], p[i + 1]))
    && (forall i :: 0 <= i < |p| ==> IsNumberChar(p[i]))
  }

  predicate NumberWord(p: string) {
    p != "" && NumberText(p) && !IsSpace(p[0])
  }

  lemma FirstOnes()
    ensures NumberWord(NumberWords.One(1)) && NumberWord(NumberWords.One(2)) && NumberWord(NumberWords.One(3))
  {
  }

  lemma MiddleOnes()
    ensures NumberWord(NumberWords.One(4)) && NumberWord(NumberWords.One(5)) && NumberWord(NumberWords.One(6))
  {
  }

  lemma LastOnes()
    ensures NumberWord(NumberWords.One(7)) && NumberWord(NumberWords.One(8)) && NumberWord(NumberWords.One(9))
  {
  }

  lemma OneIsWord(d: nat)
    requires 1 <= d <= 9
    ensures NumberWord(NumberWords.One(d))
  {
    FirstOnes();
    MiddleOnes();
    LastOnes();
  }

  lemma FirstTeens()
    ensures NumberWord(NumberWords.Teen(0)) && NumberWord(NumberWords.Teen(1)) && NumberWord(NumberWords.Teen(2))
  {
  }

  lemma MiddleTeens()
    ensures NumberWord(NumberWords.Teen(3)) && NumberWord(NumberWords.Teen(4))
  {
  }

  lemma NextTeens()
    ensures NumberWord(NumberWords.Teen(5)) && NumberWord(NumberWords.Teen(6)) && NumberWord(NumberWords.Teen(7))
  {
  }

  lemma LastTeens()
    ensures NumberWord(NumberWords.Teen(8)) && NumberWord(NumberWords.Teen(9))
  {
  }

  lemma TeenIsWord(d: nat)
    requires d <= 9
    ensures NumberWord(NumberWords.Teen(d))
  {
    FirstTeens();
    MiddleTeens();
    NextTeens();
    LastTeens();
  }

  lemma FirstTens()
    ensures NumberWord(NumberWords.Ten(2)) && NumberWord(NumberWords.Ten(3)) && NumberWord(NumberWords.Ten(4))
  {
  }

  lemma MiddleTens()
    ensures NumberWord(NumberWords.Ten(5)) && NumberWord(NumberWords.Ten(6))
  {
  }

  lemma NextTens()
    ensures NumberWord(NumberWords.Ten(7))
  {
  }

  lemma LastTens()
    ensures NumberWord(NumberWords.Ten(8)) && NumberWord(NumberWords.Ten(9))
  {
  }

  lemma TenIsWord(d: nat)
    requires 2 <= d <= 9
    ensures NumberWord(NumberWords.Ten(d))
  {
    FirstTens();
    MiddleTens();
    NextTens();
    LastTens();
  }

  lemma FirstHundreds()
    ensures NumberWord(NumberWords.Hundred(1)) && NumberWord(NumberWords.Hundred(2)) && NumberWord(NumberWords.Hundred(3))
  {
  }

  lemma MiddleHundreds()
    ensures NumberWord(NumberWords.Hundred(4)) && NumberWord(NumberWords.Hundred(5))
  {
  }

  lemma NextHundreds()
    ensures NumberWord(NumberWords.Hundred(6)) && NumberWord(NumberWords.Hundred(7))
  {
  }

  lemma LastHundreds()
    ensures NumberWord(NumberWords.Hundred(8)) && NumberWord(NumberWords.Hundred(9))
  {
  }

  lemma HundredIsWord(d: nat)
    requires 1 <= d <= 9
    ensures NumberWord(NumberWords.Hundred(d))
  {
    FirstHundreds();
    MiddleHundreds();
    NextHundreds();
    LastHundreds();
  }

  lemma NumberTextConcat(a: string, b: string)
    requires NumberText(a) && NumberText(b) && (a == "" || b == "" || b[0] == ' ' || a[|a| - 1] == ' ')
    ensures NumberText(a + b)
  {
    forall i | 0 <= i < |a + b| - 1 ensures !Spells((a + b)[i], (a + b)[i + 1]) {
      if i < |a| - 1 {
        assert !Spells(a[i], a[i + 1]);
      } else if i >= |a| {
        assert !Spells(b[i - |a|], b[i - |a| + 1]);
      }
    }
  }

  lemma AndIsNumberText(and: string)
    requires and == AND
    ensures NumberText(and) && |and| == 3 && and[0] == ' ' && and[2] == ' '
  {
  }

  lemma {:induction false} JoinedIsWord(parts: seq<string>)
    requires parts != [] && forall i :: 0 <= i < |parts| ==> NumberWord(parts[i])
    ensures NumberWord(Join(parts, AND))
  {
    if |parts| > 1 {
      var rest := Join(parts[1..], AND);
      JoinedIsWord(parts[1..]);
      AndIsNumberText(AND);
      NumberTextConcat(AND, rest);
      NumberTextConcat(parts[0], AND + rest);
      assert Join(parts, AND) == parts[0] + (AND + rest);
    }
  }

  lemma PartsAreWords(n: nat, parts: seq<string>)
    requires 0 < n < 1000 && parts == NumberWords.HundredsPart(n) + NumberWords.TensParts(n % 100)
    ensures parts != [] && forall i :: 0 <= i < |parts| ==> NumberWord(parts[i])
  {
    var rest := n % 100;
    if n >= 100 { HundredIsWord(n / 100); }
    if 10 <= rest < 20 {
      TeenIsWord(rest - 10);
    } else {
      if rest >= 20 { TenIsWord(rest / 10); }
      if rest % 10 != 0 { OneIsWord(rest % 10); }
    }
  }

  lemma SpokenIsWord(n: nat)
    requires 0 < n < 1000
    ensures NumberWord(NumberWords.Spoken(n))
  {
    var parts := NumberWords.HundredsPart(n) + NumberWords.TensParts(n % 100);
    PartsAreWords(n, parts);
    JoinedIsWord(parts);
  }

  lemma WordIsCalmFront(x: string)
    requires NumberWord(x)
    ensures CalmFront(x)
  {
    forall i | 0 <= i < |x| - 1 ensures !BadPair(x[i], x[i + 1]) {
      assert !Spells(x[i], x[i + 1]);
    }
    forall i | 0 <= i < |x| ensures !IsWordChar(x[i]) && x[i] != 'م' && x[i] != '$' && x[i] != '€' {
      assert IsNumberChar(x[i]);
    }
  }

  /** The words behind it add nothing to the number. */
  lemma WordsBehind(x: string, tail: string, n: nat)
    requires WordsValue(x) == Some(n) && tail != "" && tail[0] == ' '
    requires forall i :: 0 <= i < |WordsOf(tail)| ==> WordValue(WordsOf(tail)[i]).None?
    ensures WordsValue(x + tail) == Some(n)
  {
    NumberWords.WordsOfConcat(x, tail);
    NumberWords.SumConcat(WordsOf(x), WordsOf(tail));
    NothingAdded(WordsOf(tail));
    var i :| 0 <= i < |WordsOf(x)| && WordValue(WordsOf(x)[i]).Some?;
    assert (WordsOf(x) + WordsOf(tail))[i] == WordsOf(x)[i];
  }

  lemma {:induction false} NothingAdded(words: seq<string>)
    requires forall i :: 0 <= i < |words| ==> WordValue(words[i]).None?
    ensures Sum(words) == 0
  {
    if words != [] {
      assert forall i :: 0 <= i < |words[1..]| ==> words[1..][i] == words[i + 1];
      NothingAdded(words[1..]);
    }
  }

  lemma NoFigure(s: string)
    requires forall i :: 0 <= i < |s| ==> !IsDigit(s[i])
    ensures FirstFigure(s).None?
  {
    FigureBehind(s, "");
    assert s + "" == s;
  }

  lemma SpelledOut(x: string, tail: string)
    requires NumberWord(x) && CalmTail(tail)
    ensures PriceText(x + tail) == x + tail && FirstFigure(x + tail).None?
  {
    var s := x + tail;
    forall i | 0 <= i < |s| ensures !IsDigit(s[i]) && !IsSepFor(s[i], true) && DotChar(s[i]) == s[i] {
      if i < |x| { assert IsNumberChar(x[i]); }
    }
    StripNothing(s, true);
    PlainPriceText(s, s);
    NoFigure(s);
  }

  lemma SpokenReads(x: string, tail: string, n: nat, scale: int)
    requires NumberWord(x) && CalmTail(tail) && n > 0 && scale > 0 && n * scale <= MAX_SAFE
    requires WordsValue(x + tail) == Some(n) && ScaleOf(x + tail) == scale && Contains(tail, "تومان")
    ensures ReadAmount(x + tail) == Some(Price(n * scale, Toman))
  {
    WordIsCalmFront(x);
    SpelledOut(x, tail);
    TomanNamed(x, tail);
    FoundIn(x, tail, "تومان");
    WholeAmount(n, Toman, scale, true, false);
    NotBare(x, tail);
    ReadsItsPrice(x + tail, Price(n * scale, Toman));
  }

  lemma UnitWordsAdd(word: string, unit: string, tail: string)
    requires NumberWords.IsWord(word) && NumberWords.IsWord(unit) && tail == " " + word + " " + unit
    ensures WordsOf(tail) == [word, unit]
  {
    assert tail[1..] == word + (" " + unit) && (" " + unit)[1..] == unit && unit + "" == unit;
    NumberWords.WordThen(word, " " + unit);
    NumberWords.WordThen(unit, "");
    assert WordsOf(" " + unit) == [unit];
  }

  lemma ScaleIsNoNumber(word: string, scale: int, unit: string)
    requires ScaleWord(word, scale) && unit == "تومان"
    ensures WordValue(word).None? && WordValue(unit).None?
  {
  }

  lemma CalmIsWord(word: string)
    requires CalmWord(word)
    ensures NumberWords.IsWord(word)
  {
  }

  lemma TailAddsNothing(word: string, scale: int, tail: string)
    requires ScaleWord(word, scale) && tail == " " + word + " تومان"
    ensures forall i :: 0 <= i < |WordsOf(tail)| ==> WordValue(WordsOf(tail)[i]).None?
  {
    var unit := "تومان";
    assert " تومان" == " " + unit;
    assert tail == " " + word + " " + unit;
    ScaleIsCalm(word, scale);
    CalmUnit(unit);
    CalmIsWord(word);
    CalmIsWord(unit);
    UnitWordsAdd(word, unit, tail);
    ScaleIsNoNumber(word, scale, unit);
  }

  /** Every number from 1 to 999 in words, with a scale's word behind it, reads as so many of that scale. */
  lemma SpokenPriceReadsBack(n: nat, word: string, scale: int)
    requires 0 < n < 1000 && ScaleWord(word, scale)
    ensures ReadAmount(NumberWords.Spoken(n) + (" " + word + " تومان")) == Some(Price(n * scale, Toman))
  {
    var x, tail := NumberWords.Spoken(n), " " + word + " تومان";
    SpokenIsWord(n);
    WordIsCalmFront(x);
    TailReads(word, scale, tail);
    ScaleNamed(x, word, scale, tail);
    TailAddsNothing(word, scale, tail);
    NumberWords.WordsValueRecoversGroups(n);
    WordsBehind(x, tail, n);
    SpokenReads(x, tail, n, scale);
  }

  lemma {:induction false} PairMissing(s: string, p: string)
    requires |p| >= 2 && !IsWordChar(p[0]) && !IsWordChar(p[1])
    requires forall i :: 0 <= i < |s| - 1 ==> !(s[i] == p[0] && s[i + 1] == p[1])
    ensures !Contains(s, p)
  {
    if MatchesAt(s, p, "") {
      MatchedChar(s, p, 0);
      MatchedChar(s, p, 1);
    }
    if s != "" {
      forall i | 0 <= i < |s[1..]| - 1 ensures !(s[1..][i] == p[0] && s[1..][i + 1] == p[1]) {
        assert !(s[i + 1] == p[0] && s[i + 2] == p[1]);
      }
      PairMissing(s[1..], p);
    }
  }

  lemma TonsAddNothing(tons: string, tail: string)
    requires tons == "تن" && tail == " " + tons
    ensures NumberText(tail) && WordsOf(tail) == [tons] && WordValue(tons).None?
  {
    assert tail[1..] == tons && tons + "" == tons;
    NumberWords.WordThen(tons, "");
  }

  lemma NoKilos(s: string, kilos: string, kg: string)
    requires NumberText(s) && kilos == "کیلو" && kg == "kg"
    ensures !Contains(s, kilos) && !Contains(s, kg)
  {
    forall i | 0 <= i < |s| - 1 ensures !(s[i] == 'ک' && s[i + 1] == 'ی') {
      assert !Spells(s[i], s[i + 1]);
    }
    PairMissing(s, kilos);
    forall i | 0 <= i < |s| ensures Lower(s[i]) != 'k' {
      assert IsNumberChar(s[i]);
    }
    Missing(s, kg, 'k');
  }

  lemma SpelledWeight(s: string)
    requires NumberText(s)
    ensures WeightText(s) == s && FirstFigure(s).None?
  {
    forall i | 0 <= i < |s| ensures !IsDigit(s[i]) && !IsSepFor(s[i], true) && DotChar(s[i]) == s[i] {
      assert IsNumberChar(s[i]);
    }
    MapFixed(s, LatinChar);
    MapFixed(s, DotChar);
    StripNothing(s, false);
    NoFigure(s);
  }

  lemma SpokenTons(s: string, n: nat, unit: WeightUnit)
    requires s != "" && WeightText(s) == s && TypedWeight(s) == n as real && 0 < n < 1000
    requires Contains(s, "تن") && !Contains(s, "کیلو") && !Contains(s, "kg")
    ensures ReadWeight(s, unit) == if n <= 200 then Some(n * 100) else None
  {
    assert !InKilos(s, n as real, unit);
    assert n as real * 100.0 == (n * 100) as real && Round((n * 100) as real) == n * 100;
  }

  /** Every number from 1 to 999 in words with «تن» behind it reads as so many tons, when a truck carries that many. */
  lemma SpokenWeightReadsBack(n: nat, unit: WeightUnit)
    requires 0 < n < 1000
    ensures ReadWeight(NumberWords.Spoken(n) + (" " + "تن"), unit) == if n <= 200 then Some(n * 100) else None
  {
    var x, tons, kilos, kg := NumberWords.Spoken(n), "تن", "کیلو", "kg";
    var tail := " " + tons;
    SpokenIsWord(n);
    TonsAddNothing(tons, tail);
    NumberTextConcat(x, tail);
    NumberWords.WordsValueRecoversGroups(n);
    WordsBehind(x, tail, n);
    SpelledWeight(x + tail);
    LabelFound(x, tail, tons);
    NoKilos(x + tail, kilos, kg);
    SpokenTons(x + tail, n, unit);
  }

  //#endregion

  //#region Signs and codes

  /** A currency's sign or code, in any case of its letters. */
  predicate SignOf(sign: string, currency: Currency) {
    || (currency == Dollar && (InAnyCase(sign, "$") || InAnyCase(sign, "usd")))
    || (currency == Euro && (InAnyCase(sign, "€") || InAnyCase(sign, "eur")))
    || (currency == Dirham && InAnyCase(sign, "aed"))
    || (currency == Lira && InAnyCase(sign, "try"))
  }

  predicate InAnyCase(sign: string, code: string) {
    |sign| == |code| && forall i :: 0 <= i < |code| ==> Lower(sign[i]) == code[i]
  }

  lemma {:induction false} CodeMatches(sign: string, code: string)
    requires InAnyCase(sign, code)
    ensures MatchesAt(sign, code, "")
  {
    if code != "" { CodeMatches(sign[1..], code[1..]); }
  }

  lemma CodeFound(x: string, sign: string, code: string)
    requires InAnyCase(sign, code)
    ensures Contains(x + (" " + sign), code)
  {
    CodeMatches(sign, code);
    assert (" " + sign)[1..] == sign && Matches(sign, code, "");
    FoundIn(x, " " + sign, code);
  }

  /** The characters of a sign or code; every other one is missing behind the figure. */
  lemma CodeLacks(sign: string, code: string, c: char)
    requires InAnyCase(sign, code) && c != ' ' && forall i :: 0 <= i < |code| ==> code[i] != c
    ensures Lacks(" " + sign, c)
  {
  }

  lemma IsDollar(x: string, sign: string)
    requires SignOf(sign, Dollar)
    ensures CurrencyOf(x + (" " + sign)) == Dollar
  {
    var usd, dollar := "usd", "$";
    if InAnyCase(sign, usd) { CodeFound(x, sign, usd); } else { CodeFound(x, sign, dollar); }
  }

  lemma NoDollarSign(x: string, sign: string, code: string)
    requires DigitsAndCommas(x) && InAnyCase(sign, code)
    requires code == "€" || code == "eur" || code == "aed" || code == "try"
    ensures var text := x + (" " + sign); !Contains(text, "دلار") && !Contains(text, "$") && !Contains(text, "usd")
  {
    var tail := " " + sign;
    CodeLacks(sign, code, 'د');
    CodeLacks(sign, code, '$');
    CodeLacks(sign, code, 's');
    MissingIn(x, tail, "دلار", 'د');
    MissingIn(x, tail, "$", '$');
    MissingIn(x, tail, "usd", 's');
  }

  lemma NoEuroSign(x: string, sign: string, code: string)
    requires DigitsAndCommas(x) && InAnyCase(sign, code) && (code == "aed" || code == "try")
    ensures var text := x + (" " + sign); !Contains(text, "یورو") && !Contains(text, "€") && !Contains(text, "eur")
  {
    var tail := " " + sign;
    CodeLacks(sign, code, 'و');
    CodeLacks(sign, code, '€');
    CodeLacks(sign, code, 'u');
    MissingIn(x, tail, "یورو", 'و');
    MissingIn(x, tail, "€", '€');
    MissingIn(x, tail, "eur", 'u');
  }

  lemma IsEuro(x: string, sign: string)
    requires DigitsAndCommas(x) && SignOf(sign, Euro)
    ensures CurrencyOf(x + (" " + sign)) == Euro
  {
    var eur, euro := "eur", "€";
    var code := if InAnyCase(sign, eur) then eur else euro;
    NoDollarSign(x, sign, code);
    CodeFound(x, sign, code);
  }

  lemma IsDirham(x: string, sign: string)
    requires DigitsAndCommas(x) && SignOf(sign, Dirham)
    ensures CurrencyOf(x + (" " + sign)) == Dirham
  {
    var code := "aed";
    NoDollarSign(x, sign, code);
    NoEuroSign(x, sign, code);
    CodeFound(x, sign, code);
  }

  lemma IsLira(x: string, sign: string)
    requires DigitsAndCommas(x) && SignOf(sign, Lira)
    ensures CurrencyOf(x + (" " + sign)) == Lira
  {
    var code, tail := "try", " " + sign;
    NoDollarSign(x, sign, code);
    NoEuroSign(x, sign, code);
    CodeFound(x, sign, code);
    CodeLacks(sign, code, 'د');
    CodeLacks(sign, code, 'a');
    MissingIn(x, tail, "درهم", 'د');
    MissingIn(x, tail, "aed", 'a');
  }

  lemma SignTail(sign: string, currency: Currency, tail: string)
    requires SignOf(sign, currency) && tail == " " + sign
    ensures Untouched(tail) && !IsDigit(tail[|tail| - 1]) && Lacks(tail, 'م') && Lacks(tail, 'ز') && Lacks(tail, 'k')
  {
    var usd, dollar, eur, euro, aed, lira := "usd", "$", "eur", "€", "aed", "try";
    var code := if InAnyCase(sign, usd) then usd else if InAnyCase(sign, dollar) then dollar else if InAnyCase(sign, eur) then eur
                else if InAnyCase(sign, euro) then euro else if InAnyCase(sign, aed) then aed else lira;
    CodeLacks(sign, code, 'م');
    CodeLacks(sign, code, 'ز');
    CodeLacks(sign, code, 'k');
    CodeIsPlain(sign, code);
  }

  lemma CodeIsPlain(sign: string, code: string)
    requires InAnyCase(sign, code) && code != "" && forall i :: 0 <= i < |code| ==> 'a' <= code[i] <= 'z' || code[i] == '$' || code[i] == '€'
    ensures Untouched(" " + sign) && !IsDigit(sign[|sign| - 1])
  {
    forall i | 0 <= i < |sign| ensures LatinChar(sign[i]) == sign[i] && DotChar(sign[i]) == sign[i] && !IsSepFor(sign[i], true) && !IsSpace(sign[i]) && !IsDigit(sign[i]) {
      assert Lower(sign[i]) == code[i];
    }
  }

  lemma SignRead(n: nat, currency: Currency, tail: string)
    requires 0 < n <= MAX_SAFE && currency != Toman && Untouched(tail) && tail[0] == ' ' && !IsDigit(tail[|tail| - 1])
    requires CurrencyOf(Decimal(n) + tail) == currency && ScaleOf(tail) == 1
    ensures ReadAmount(FaNumber(n) + tail) == Some(Price(n, currency))
  {
    var text := FaNumber(n) + tail;
    UntouchedPriceText(n, tail);
    DecimalReadsBack(n);
    FigureOnly(Decimal(n), tail, currency, 1);
    WholeAmount(n, currency, 1, Contains(Decimal(n) + tail, "تومان"), Contains(Decimal(n) + tail, "ریال"));
    MapAt(text, LatinChar);
    assert text[|text| - 1] == tail[|tail| - 1];
    CompactKeeps(Latin(text), |text| - 1);
    ReadsItsPrice(text, Price(n, currency));
  }

  /** A figure with a currency's sign or code behind it reads as that amount of that currency. */
  lemma SignReadsBack(n: nat, sign: string, currency: Currency)
    requires 0 < n <= MAX_SAFE && SignOf(sign, currency)
    ensures ReadAmount(FaNumber(n) + (" " + sign)) == Some(Price(n, currency))
  {
    var x, tail := Decimal(n), " " + sign;
    DecimalReadsBack(n);
    SignTail(sign, currency, tail);
    NoScale(tail);
    if currency == Dollar { IsDollar(x, sign); }
    if currency == Euro { IsEuro(x, sign); }
    if currency == Dirham { IsDirham(x, sign); }
    if currency == Lira { IsLira(x, sign); }
    SignRead(n, currency, tail);
  }

  //#endregion
}