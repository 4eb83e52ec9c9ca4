/**
 * Amounts and weights as typed and as shown: readAmount, readWeight, moneyText, moneyWords and the form's starting values
 * from a load. A weight is a whole number of hundredths of a ton.
 */
module TripFare {
  import opened Options
  import opened DigitGroups
  import opened Amounts
  import opened CargoPrice

  const MAX_SAFE: int := 9_007_199_254_740_991
  const MAX_WEIGHT: int := 200 * 100

  datatype WeightUnit = Tons | Kilos

  datatype Basis = Total | PerTon

  datatype FareDefaults = FareDefaults(basis: Option<Basis>, rate: Option<int>, currency: Currency, weight: Option<int>)

  //#region Reading

  /** Without white space and separators. */
  function Compact(s: string): string {
    if s == "" then ""
    else (if IsSpace(s[0]) || IsSep(s[0]) then [] else [s[0]]) + Compact(s[1..])
  }

  function ReadAmount(text: string): (r: Option<Price>)
    ensures r.Some? ==> 0 < r.value.amount <= MAX_SAFE
  {
    var clean := Compact(Latin(text));
    if text == "" then None
    else if clean != "" && AllDigits(clean) then
      if 0 < NatOf(clean) <= MAX_SAFE then Some(Price(NatOf(clean), Toman)) else None
    else
      var price := ParseCargoPrice(text);
      if price.Some? && 0 < price.value.amount <= MAX_SAFE then price else None
  }

  function WeightText(text: string): string {
    Strip(Dots(Latin(text)), false)
  }

  function TypedWeight(clean: string): real {
    var figure := FirstFigure(clean);
    if figure.Some? then FigureValue(figure.value)
    else if Contains(clean, "تن") || Contains(clean, "ton") || Contains(clean, "کیلو") || Contains(clean, "kg") then
      WordsValue(clean).GetOr(0) as real
    else 0.0
  }

  predicate InKilos(clean: string, value: real, unit: WeightUnit) {
    || Contains(clean, "کیلو") || Contains(clean, "kg")
    || (!Contains(clean, "تن") && !Contains(clean, "ton") && (unit == Kilos || value > 200.0))
    || value >= 1000.0
  }

  function ReadWeight(text: string, unit: WeightUnit): (r: Option<int>)
    ensures r.Some? ==> 0 < r.value <= MAX_WEIGHT
  {
    var clean := WeightText(text);
    var value := TypedWeight(clean);
    var tons := if InKilos(clean, value, unit) then value / 1000.0 else value;
    var hundredths := Round(tons * 100.0);
    if text != "" && value != 0.0 && 0 < hundredths <= MAX_WEIGHT then Some(hundredths) else None
  }

  predicate SaysPerTon(price: string) {
    Matches(price, "تنی", "") || Matches(price, "هر", "تن") || Matches(price, "per", "ton")
  }

  /** A missing price or weight reads like an empty one. */
  function DefaultsFromListing(price: string, weight: string): FareDefaults {
    var amount := ReadAmount(price);
    if amount.Some? then
      FareDefaults(Some(if SaysPerTon(price) then PerTon else Total), Some(amount.value.amount), amount.value.currency,
                   ReadWeight(weight, Tons))
    else
      FareDefaults(None, None, Toman, ReadWeight(weight, Tons))
  }

  //#endregion

  //#region Grouping keeps what is read

  lemma {:induction false} CompactMapped(s: string, f: char -> char)
    requires forall c :: IsSpace(f(c)) <==> IsSpace(c)
    requires forall c :: IsSep(f(c)) <==> IsSep(c)
    ensures Compact(MapChars(s, f)) == MapChars(Compact(s), f)
  {
    if s != "" {
      var rest := Compact(s[1..]);
      CompactMapped(s[1..], f);
      assert MapChars(s, f)[0] == f(s[0]) && MapChars(s, f)[1..] == MapChars(s[1..], f);
      assert ([s[0]] + rest)[1..] == rest && [] + rest == rest && [] + MapChars(rest, f) == MapChars(rest, f);
    }
  }

  lemma {:induction false} CompactConcat(s: string, t: string)
    ensures Compact(s + t) == Compact(s) + Compact(t)
  {
    if s == "" {
      assert s + t == t;
    } else {
      CompactConcat(s[1..], t);
      assert (s + t)[1..] == s[1..] + t;
    }
  }

  lemma CompactFront(front: string, t: string, t': string)
    requires Compact(t) == Compact(t')
    ensures Compact(front + t) == Compact(front + t')
  {
    CompactConcat(front, t);
    CompactConcat(front, t');
  }

  lemma CompactSep(c: char, sep: char, t: string)
    requires IsSep(sep)
    ensures Compact([c] + [sep] + t) == Compact([c] + t)
  {
    assert ([sep] + t)[1..] == t;
    assert [c] + [sep] + t == [c] + ([sep] + t);
    CompactFront([c], [sep] + t, t);
  }

  lemma {:induction false} CompactSeparated(run: string, sep: char)
    requires AllDigits(run) && IsSep(sep)
    ensures Compact(Separated(run, sep)) == Compact(run)
  {
    if run != "" {
      var tail := Separated(run[1..], sep);
      CompactSeparated(run[1..], sep);
      CompactFront([run[0]], tail, run[1..]);
      assert run == [run[0]] + run[1..];
      if |run| > 1 && (|run| - 1) % 3 == 0 {
        CompactSep(run[0], sep, tail);
      } else {
        assert [run[0]] + [] + tail == [run[0]] + tail;
      }
    }
  }

  lemma {:induction false} CompactGrouped(prev: Option<char>, s: string)
    ensures Compact(GroupFrom(prev, s)) == Compact(s)
    decreases |s|
  {
    if s == "" {
    } else if IsDigit(s[0]) {
      RunIsMaximal(s);
      var n := RunLength(s);
      CompactGrouped(Some(s[n - 1]), s[n..]);
      CompactSeparated(s[..n], Separator(s[..n]));
      CompactConcat(Rewritten(prev, s[..n], s[n..]), GroupFrom(Some(s[n - 1]), s[n..]));
      CompactConcat(s[..n], s[n..]);
      assert s == s[..n] + s[n..];
    } else {
      CompactGrouped(Some(s[0]), s[1..]);
      CompactConcat([s[0]], GroupFrom(Some(s[0]), s[1..]));
      CompactConcat([s[0]], s[1..]);
      assert s == [s[0]] + s[1..];
    }
  }

  lemma GroupedAmountReadsTheSame(text: string)
    requires !CommaBeforeShortGroup(text)
    ensures ReadAmount(GroupDigits(text)) == ReadAmount(text)
  {
    CompactGrouped(None, text);
    CompactMapped(text, LatinChar);
    CompactMapped(GroupDigits(text), LatinChar);
    GroupedPriceReadsTheSame(text);
    GroupKeepsHead(None, text);
    SameAmountText(text, GroupDigits(text));
  }

  lemma SameAmountText(text: string, text': string)
    requires Compact(Latin(text')) == Compact(Latin(text)) && (text' == "" <==> text == "")
    requires ParseCargoPrice(text') == ParseCargoPrice(text)
    ensures ReadAmount(text') == ReadAmount(text)
  {
  }

  lemma WeightTextUpToMaps(text: string)
    ensures WeightText(text) == MapChars(MapChars(Strip(text, false), LatinChar), DotChar)
  {
    StripMapped(text, false, LatinChar);
    StripMapped(Latin(text), false, DotChar);
  }

  /** Grouping never changes the weight a text says, whatever the text. */
  lemma GroupedWeightReadsTheSame(text: string, unit: WeightUnit)
    ensures ReadWeight(GroupDigits(text), unit) == ReadWeight(text, unit)
  {
    StripGrouped(None, text, false);
    WeightTextUpToMaps(text);
    WeightTextUpToMaps(GroupDigits(text));
    GroupKeepsHead(None, text);
    SameWeightText(text, GroupDigits(text), unit);
  }

  lemma SameWeightText(text: string, text': string, unit: WeightUnit)
    requires WeightText(text') == WeightText(text) && (text' == "" <==> text == "")
    ensures ReadWeight(text', unit) == ReadWeight(text, unit)
  {
  }

  predicate NoDigitsOrSeps(p: string) {
    forall i :: 0 <= i < |p| ==> !IsDigit(p[i]) && !IsSep(p[i])
  }

  predicate OnlyDigitsAndSeps(s: string) {
    forall i :: 0 <= i < |s| ==> IsDigit(s[i]) || IsSep(s[i])
  }

  lemma {:induction false} AtGrouped(prev: Option<char>, s: string, p: string)
    requires NoDigitsOrSeps(p)
    ensures At(GroupFrom(prev, s), p) <==> At(s, p)
    decreases |p|
  {
    GroupKeepsHead(prev, s);
    if p != "" && s != "" && !IsDigit(s[0]) {
      AtGrouped(Some(s[0]), s[1..], p[1..]);
      GroupTail(prev, s);
    }
  }

  lemma GroupTail(prev: Option<char>, s: string)
    requires s != "" && !IsDigit(s[0])
    ensures GroupFrom(prev, s) != "" && GroupFrom(prev, s)[1..] == GroupFrom(Some(s[0]), s[1..])
  {
  }

  lemma {:induction false} AfterSpacesGrouped(prev: Option<char>, s: string, p: string)
    requires NoDigitsOrSeps(p)
    ensures AfterSpaces(GroupFrom(prev, s), p) <==> AfterSpaces(s, p)
    decreases |s|
  {
    AtGrouped(prev, s, p);
    GroupKeepsHead(prev, s);
    if s != "" && IsSpace(s[0]) {
      AfterSpacesGrouped(Some(s[0]), s[1..], p);
      GroupTail(prev, s);
    }
  }

  lemma {:induction false} MatchGrouped(prev: Option<char>, s: string, a: string, b: string)
    requires NoDigitsOrSeps(a) && NoDigitsOrSeps(b)
    ensures MatchesAt(GroupFrom(prev, s), a, b) <==> MatchesAt(s, a, b)
    decreases |a|
  {
    if a == "" {
      AfterSpacesGrouped(prev, s, b);
    } else {
      GroupKeepsHead(prev, s);
      if s != "" && !IsDigit(s[0]) {
        MatchGrouped(Some(s[0]), s[1..], a[1..], b);
        GroupTail(prev, s);
      }
    }
  }

  /** A pattern does not start inside digits and separators. */
  lemma {:induction false} MatchesBehind(x: string, y: string, a: string, b: string)
    requires OnlyDigitsAndSeps(x) && a != "" && NoDigitsOrSeps(a)
    ensures Matches(x + y, a, b) <==> Matches(y, a, b)
  {
    if x == "" {
      assert x + y == y;
    } else {
      MatchesBehind(x[1..], y, a, b);
      assert (x + y)[1..] == x[1..] + y;
    }
  }

  lemma {:induction false} SeparatedChars(run: string, sep: char)
    requires AllDigits(run) && IsSep(sep)
    ensures OnlyDigitsAndSeps(Separated(run, sep))
    ensures AllLatin(run) ==> forall i :: 0 <= i < |Separated(run, sep)| ==> IsLatin(Separated(run, sep)[i]) || Separated(run, sep)[i] == sep
  {
    if run != "" {
      SeparatedChars(run[1..], sep);
    }
  }

  lemma {:induction false} MatchesGrouped(prev: Option<char>, s: string, a: string, b: string)
    requires a != "" && NoDigitsOrSeps(a) && NoDigitsOrSeps(b)
    ensures Matches(GroupFrom(prev, s), a, b) <==> Matches(s, a, b)
    decreases |s|
  {
    if s == "" {
    } else if IsDigit(s[0]) {
      RunIsMaximal(s);
      var n := RunLength(s);
      MatchesGrouped(Some(s[n - 1]), s[n..], a, b);
      SeparatedChars(s[..n], Separator(s[..n]));
      MatchesBehind(Rewritten(prev, s[..n], s[n..]), GroupFrom(Some(s[n - 1]), s[n..]), a, b);
      MatchesBehind(s[..n], s[n..], a, b);
      assert s == s[..n] + s[n..];
    } else {
      MatchGrouped(prev, s, a, b);
      MatchesGrouped(Some(s[0]), s[1..], a, b);
      GroupTail(prev, s);
    }
  }

  lemma PerTonGrouped(price: string)
    ensures SaysPerTon(GroupDigits(price)) <==> SaysPerTon(price)
  {
    MatchesGrouped(None, price, "تنی", "");
    MatchesGrouped(None, price, "هر", "تن");
    MatchesGrouped(None, price, "per", "ton");
  }

  lemma SameDefaults(price: string, price': string, weight: string, weight': string)
    requires ReadAmount(price') == ReadAmount(price) && (SaysPerTon(price') <==> SaysPerTon(price))
    requires ReadWeight(weight', Tons) == ReadWeight(weight, Tons)
    ensures DefaultsFromListing(price', weight') == DefaultsFromListing(price, weight)
  {
  }

  /**
   * Storing a load's price and weight grouped, as far as their columns allow, gives the company's form the same starting
   * values.
   */
  lemma GroupedListingGivesTheSameDefaults(price: string, weight: string, max: nat)
    requires !CommaBeforeShortGroup(price)
    ensures DefaultsFromListing(GroupedField(price, max), GroupedField(weight, max)) == DefaultsFromListing(price, weight)
  {
    GroupedAmountReadsTheSame(price);
    GroupedWeightReadsTheSame(weight, Tons);
    PerTonGrouped(price);
    SameDefaults(price, GroupedField(price, max), weight, GroupedField(weight, max));
  }

  //#endregion

  //#region Amounts for people

  function PersianChar(c: char): (p: char)
    ensures IsLatin(c) ==> IsPersian(p) && DigitOf(p) == DigitOf(c)
    ensures !IsLatin(c) ==> p == c
  {
    if IsLatin(c) then (0x6F0 + DigitOf(c)) as char else c
  }

  function ToPersian(s: string): string {
    MapChars(s, PersianChar)
  }

  function FaNumber(n: nat): string {
    ToPersian(Separated(Decimal(n), FA_SEP))
  }

  function Label(currency: Currency): string {
    match currency
    case Toman => "تومان"
    case Dollar => "دلار"
    case Euro => "یورو"
    case Dirham => "درهم"
    case Lira => "لیر"
  }

  function MoneyText(amount: nat, currency: Currency): string {
    FaNumber(amount) + " " + Label(currency)
  }

  //#endregion

  //#region An amount shown reads back

  lemma {:induction false} MapAt(s: string, f: char -> char)
    ensures forall i :: 0 <= i < |s| ==> MapChars(s, f)[i] == f(s[i])
  {
    if s != "" {
      MapAt(s[1..], f);
      forall i | 0 <= i < |s| ensures MapChars(s, f)[i] == f(s[i]) {
        if i > 0 { assert MapChars(s, f)[i] == MapChars(s[1..], f)[i - 1]; }
      }
    }
  }

  lemma LatinUndoesPersian(s: string)
    requires forall i :: 0 <= i < |s| ==> IsLatin(s[i]) || !IsDigit(s[i])
    ensures Latin(ToPersian(s)) == s
  {
    MapAt(s, PersianChar);
    MapAt(ToPersian(s), LatinChar);
    forall i | 0 <= i < |s| ensures Latin(ToPersian(s))[i] == s[i] {
      if IsLatin(s[i]) {
        assert DigitOf(LatinChar(PersianChar(s[i]))) == DigitOf(s[i]);
      }
    }
  }

  lemma {:induction false} MapConcat(s: string, t: string, f: char -> char)
    ensures MapChars(s + t, f) == MapChars(s, f) + MapChars(t, f)
  {
    if s == "" {
      assert s + t == t;
    } else {
      MapConcat(s[1..], t, f);
      assert (s + t)[1..] == s[1..] + t;
    }
  }

  /** The unit behind the figure: a space and the label. */
  function UnitText(currency: Currency): (t: string)
    ensures t == " " + Label(currency)
  {
    " " + Label(currency)
  }

  predicate PlainTail(t: string) {
    && t != "" && !IsSpace(t[|t| - 1]) && t[0] == ' '
    && forall i :: 0 <= i < |t| ==> !IsDigit(t[i]) && !IsSepFor(t[i], true) && DotChar(t[i]) == t[i] && !IsWordChar(t[i])
  }

  lemma UnitIsPlain(currency: Currency)
    ensures PlainTail(UnitText(currency))
  {
    match currency
    case Toman => assert UnitText(currency) == " تومان";
    case Dollar => assert UnitText(currency) == " دلار";
    case Euro => assert UnitText(currency) == " یورو";
    case Dirham => assert UnitText(currency) == " درهم";
    case Lira => assert UnitText(currency) == " لیر";
  }

  lemma {:induction false} StripNothing(t: string, fa: bool)
    requires forall i :: 0 <= i < |t| ==> !IsSepFor(t[i], fa)
    ensures Strip(t, fa) == t
  {
    if t != "" {
      StripNothing(t[1..], fa);
    }
  }

  /** The figure's text as the reader sees it. */
  lemma ShownPriceText(n: nat, tail: string)
    requires PlainTail(tail)
    ensures Latin(FaNumber(n) + tail) == Separated(Decimal(n), FA_SEP) + tail
    ensures PriceText(FaNumber(n) + tail) == Decimal(n) + tail
  {
    var d := Decimal(n);
    var shown := Separated(d, FA_SEP);
    DecimalReadsBack(n);
    SeparatedChars(d, FA_SEP);
    LatinUndoesPersian(shown);
    MapFixed(tail, LatinChar);
    MapConcat(FaNumber(n), tail, LatinChar);
    StripSeparated(d, FA_SEP, tail, true);
    StripNothing(tail, true);
    PlainShown(FaNumber(n) + tail, d, tail);
  }

  lemma PlainShown(s: string, d: string, tail: string)
    requires PlainTail(tail) && AllLatin(d) && d != "" && Strip(Latin(s), true) == d + tail
    ensures PriceText(s) == d + tail
  {
    DotsLeave(d, tail);
    NothingToTrim(d, tail);
  }

  lemma DotsLeave(d: string, tail: string)
    requires PlainTail(tail) && AllLatin(d)
    ensures Dots(d + tail) == d + tail
  {
    MapFixed(d + tail, DotChar);
  }

  lemma NothingToTrim(d: string, tail: string)
    requires PlainTail(tail) && AllLatin(d) && d != ""
    ensures TrimEnd(TrimStart(d + tail)) == d + tail
  {
    var t := d + tail;
    assert t[0] == d[0] && t[|t| - 1] == tail[|tail| - 1];
  }

  lemma LacksIn(x: string, tail: string, c: char)
    requires DigitsAndCommas(x) && !IsLatin(c) && c != FA_COMMA && Lacks(tail, c)
    ensures Lacks(x + tail, c)
  {
  }

  lemma MissingIn(x: string, tail: string, p: string, c: char)
    requires DigitsAndCommas(x) && c in p && !IsLatin(c) && c != FA_COMMA && Lacks(tail, c)
    ensures !Contains(x + tail, p)
  {
    LacksIn(x, tail, c);
    Missing(x + tail, p, c);
  }

  lemma {:induction false} FoundIn(x: string, tail: string, p: string)
    requires Contains(tail, p)
    ensures Contains(x + tail, p)
  {
    if x == "" {
      assert x + tail == tail;
    } else {
      FoundIn(x[1..], tail, p);
      assert (x + tail)[1..] == x[1..] + tail;
    }
  }

  lemma {:induction false} MatchesItself(p: string)
    requires forall i :: 0 <= i < |p| ==> Lower(p[i]) == p[i]
    ensures MatchesAt(p, p, "")
  {
    if p != "" {
      MatchesItself(p[1..]);
    }
  }

  lemma LabelFound(x: string, tail: string, word: string)
    requires tail == " " + word && forall i :: 0 <= i < |word| ==> Lower(word[i]) == word[i]
    ensures Contains(x + tail, word)
  {
    MatchesItself(word);
    assert tail[1..] == word;
    assert Matches(tail[1..], word, "");
    FoundIn(x, tail, word);
  }

  lemma NotDollar(x: string, tail: string, c: char)
    requires DigitsAndCommas(x) && c in "دلار" && Lacks(tail, c) && Lacks(tail, '$') && Lacks(tail, 'u')
    ensures !Contains(x + tail, "دلار") && !Contains(x + tail, "$") && !Contains(x + tail, "usd")
  {
    MissingIn(x, tail, "دلار", c);
    MissingIn(x, tail, "$", '$');
    MissingIn(x, tail, "usd", 'u');
  }

  lemma NotEuro(x: string, tail: string, c: char)
    requires DigitsAndCommas(x) && c in "یورو" && Lacks(tail, c) && Lacks(tail, '€') && Lacks(tail, 'u')
    ensures !Contains(x + tail, "یورو") && !Contains(x + tail, "€") && !Contains(x + tail, "eur")
  {
    MissingIn(x, tail, "یورو", c);
    MissingIn(x, tail, "€", '€');
    MissingIn(x, tail, "eur", 'u');
  }

  lemma NotDirham(x: string, tail: string)
    requires DigitsAndCommas(x) && Lacks(tail, 'د') && Lacks(tail, 'a')
    ensures !Contains(x + tail, "درهم") && !Contains(x + tail, "aed")
  {
    MissingIn(x, tail, "درهم", 'د');
    MissingIn(x, tail, "aed", 'a');
  }

  lemma NotLira(x: string, tail: string)
    requires DigitsAndCommas(x) && Lacks(tail, 'ل') && Lacks(tail, 't')
    ensures !Contains(x + tail, "لیر") && !Contains(x + tail, "try")
  {
    MissingIn(x, tail, "لیر", 'ل');
    MissingIn(x, tail, "try", 't');
  }

  lemma TomanFound(x: string, tail: string)
    requires DigitsAndCommas(x) && tail == " تومان"
    ensures CurrencyOf(x + tail) == Toman && Contains(x + tail, "تومان") && !Contains(x + tail, "ریال")
  {
    NotDollar(x, tail, 'د');
    NotEuro(x, tail, 'ی');
    NotDirham(x, tail);
    NotLira(x, tail);
    LabelFound(x, tail, "تومان");
    MissingIn(x, tail, "ریال", 'ی');
  }

  lemma UnitFound(x: string, currency: Currency)
    requires DigitsAndCommas(x)
    ensures CurrencyOf(x + UnitText(currency)) == currency
    ensures currency == Toman ==> Contains(x + UnitText(currency), "تومان") && !Contains(x + UnitText(currency), "ریال")
  {
    var tail := UnitText(currency);
    UnitIsLiteral(currency);
    if !currency.Toman? { LabelFound(x, tail, Label(currency)); }
    match currency
    case Toman => TomanFound(x, tail);
    case Dollar =>
    case Euro => NotDollar(x, tail, 'د');
    case Dirham =>
      NotDollar(x, tail, 'ل');
      NotEuro(x, tail, 'ی');
    case Lira =>
      NotDollar(x, tail, 'د');
      NotEuro(x, tail, 'و');
      NotDirham(x, tail);
  }

  lemma UnitIsLiteral(currency: Currency)
    ensures UnitText(currency) == match currency
                                  case Toman => " تومان"
                                  case Dollar => " دلار"
                                  case Euro => " یورو"
                                  case Dirham => " درهم"
                                  case Lira => " لیر"
  {
  }

  lemma UnitHasNoScale(currency: Currency)
    ensures ScaleOf(UnitText(currency)) == 1
  {
    UnitIsLiteral(currency);
    UnitIsPlain(currency);
    NoScale(UnitText(currency));
  }

  lemma {:induction false} CompactKeeps(s: string, i: nat)
    requires i < |s| && !IsSpace(s[i]) && !IsSep(s[i])
    ensures s[i] in Compact(s)
  {
    if i > 0 {
      CompactKeeps(s[1..], i - 1);
    }
  }

  /** Every whole amount shown in any currency reads back as the same amount in the same currency. */
  lemma ShownAmountReadsBack(n: nat, currency: Currency)
    requires 0 < n <= MAX_SAFE
    ensures ReadAmount(MoneyText(n, currency)) == Some(Price(n, currency))
  {
    var tail := UnitText(currency);
    UnitIsPlain(currency);
    ShownPriceText(n, tail);
    assert MoneyText(n, currency) == FaNumber(n) + tail;
    UnitIsNoBareNumber(FaNumber(n), tail, FaNumber(n) + tail);
    ShownPrice(n, currency);
    ReadsItsPrice(FaNumber(n) + tail, Price(n, currency));
  }

  lemma UnitIsNoBareNumber(front: string, tail: string, text: string)
    requires PlainTail(tail) && text == front + tail
    ensures text != "" && !AllDigits(Compact(Latin(text)))
  {
    MapAt(text, LatinChar);
    assert text[|text| - 1] == tail[|tail| - 1];
    CompactKeeps(Latin(text), |text| - 1);
  }

  lemma ReadsItsPrice(text: string, price: Price)
    requires text != "" && !AllDigits(Compact(Latin(text))) && ParseCargoPrice(text) == Some(price)
    requires 0 < price.amount <= MAX_SAFE
    ensures ReadAmount(text) == Some(price)
  {
  }

  lemma ShownPrice(n: nat, currency: Currency)
    requires n > 0
    ensures ReadPrice(Decimal(n) + UnitText(currency)) == Some(Price(n, currency))
  {
    DecimalReadsBack(n);
    UnitFound(Decimal(n), currency);
    UnitHasNoScale(currency);
    UnitIsPlain(currency);
    FigureOnly(Decimal(n), UnitText(currency), currency, 1);
    WholeAmount(n, currency, 1, Contains(Decimal(n) + UnitText(currency), "تومان"),
                Contains(Decimal(n) + UnitText(currency), "ریال"));
  }

  lemma WholeAmount(n: nat, currency: Currency, scale: int, tomans: bool, rials: bool)
    requires n > 0 && scale > 0 && (currency == Toman ==> !rials && (tomans || scale > 1))
    ensures PriceOf(n as real, currency, scale, tomans, rials) == Some(Price(n * scale, currency))
  {
    assert n as real * scale as real == (n * scale) as real;
  }

  //#endregion
}
