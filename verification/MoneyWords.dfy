/**
 * moneyWords: an amount of tomans in figures with scale words, read at a glance. The source builds it in a loop over the
 * three scales; a reader of such texts shows that no two amounts are worded alike.
 */
module MoneyWords {
  import opened Options
  import opened DigitGroups
  import opened Amounts
  import opened CargoPrice
  import opened TripFare

  function Size(scale: nat): (size: nat)
    ensures size > 0
  {
    match scale
    case 0 => 1_000_000_000
    case 1 => 1_000_000
    case _ => 1000
  }

  function Word(scale: nat): string {
    match scale
    case 0 => "میلیارد"
    case 1 => "میلیون"
    case _ => "هزار"
  }

  function Count(n: nat): string {
    ToPersian(Decimal(n))
  }

  function Part(count: nat, scale: nat): string {
    Count(count) + " " + Word(scale)
  }

  function PartIfAny(count: nat, scale: nat): seq<string> {
    if count == 0 then [] else [Part(count, scale)]
  }

  /** What is left of an amount when the first scales have been taken out. */
  function Left(amount: nat, scales: nat): nat {
    match scales
    case 0 => amount
    case 1 => amount % 1_000_000_000
    case 2 => amount % 1_000_000_000 % 1_000_000
    case _ => amount % 1_000_000_000 % 1_000_000 % 1000
  }

  function CountOf(amount: nat, scale: nat): nat {
    Left(amount, scale) / Size(scale)
  }

  /** The parts an amount has in the first scales. */
  function PartsTo(amount: nat, scales: nat): seq<string> {
    (if scales > 0 then PartIfAny(CountOf(amount, 0), 0) else [])
    + (if scales > 1 then PartIfAny(CountOf(amount, 1), 1) else [])
    + (if scales > 2 then PartIfAny(CountOf(amount, 2), 2) else [])
  }

  function Parts(amount: nat): seq<string> {
    PartsTo(amount, 3) + (if Left(amount, 3) == 0 then [] else [Count(Left(amount, 3))])
  }

  function InTomans(parts: seq<string>): string {
    (if parts == [] then "۰" else Join(parts, AND)) + " تومان"
  }

  function Worded(amount: nat): string {
    InTomans(Parts(amount))
  }

  /** Amounts in other currencies are shown as figures. */
  method MoneyWords(amount: nat, currency: Currency) returns (text: string)
    ensures text == if currency == Toman then Worded(amount) else MoneyText(amount, currency)
  {
    if currency != Toman {
      return MoneyText(amount, currency);
    }
    var parts: seq<string> := [];
    var rest: nat := amount;
    for scale := 0 to 3
      invariant parts == PartsTo(amount, scale) && rest == Left(amount, scale)
    {
      var count := rest / Size(scale);
      if count != 0 {
        parts := parts + [Part(count, scale)];
      }
      PartsStep(amount, scale);
      rest := rest % Size(scale);
    }
    PartsEnd(amount, parts, rest);
    if rest != 0 {
      parts := parts + [Count(rest)];
    }
    text := InTomans(parts);
  }

  lemma PartsStep(amount: nat, scale: nat)
    requires scale < 3
    ensures PartsTo(amount, scale + 1) == PartsTo(amount, scale) + PartIfAny(CountOf(amount, scale), scale)
    ensures Left(amount, scale + 1) == Left(amount, scale) % Size(scale)
  {
  }

  lemma PartsEnd(amount: nat, done: seq<string>, rest: nat)
    requires done == PartsTo(amount, 3) && rest == Left(amount, 3)
    ensures Parts(amount) == if rest == 0 then done else done + [Count(rest)]
  {
  }

  //#region Reading it back

  function ScaleBehind(rest: string): nat {
    if " میلیارد" <= rest then 1_000_000_000
    else if " میلیون" <= rest then 1_000_000
    else if " هزار" <= rest then 1000
    else 1
  }

  /** The sum of the figures of a text, each with the scale word behind it. */
  function ReadBack(t: string): nat
    decreases |t|
  {
    if t == "" then 0
    else if !IsDigit(t[0]) then ReadBack(t[1..])
    else
      RunIsMaximal(t);
      NatOf(t[..RunLength(t)]) * ScaleBehind(t[RunLength(t)..]) + ReadBack(t[RunLength(t)..])
  }

  lemma {:induction false} ReadBackSkips(x: string, t: string)
    requires forall i :: 0 <= i < |x| ==> !IsDigit(x[i])
    ensures ReadBack(x + t) == ReadBack(t)
  {
    if x == "" {
      assert x + t == t;
    } else {
      ReadBackSkips(x[1..], t);
      assert (x + t)[1..] == x[1..] + t;
    }
  }

  lemma ReadBackRun(x: string, t: string)
    requires x != "" && AllDigits(x) && !StartsWithDigit(t)
    ensures ReadBack(x + t) == NatOf(x) * ScaleBehind(t) + ReadBack(t)
  {
    RunOf(x, t);
    assert (x + t)[..|x|] == x && (x + t)[|x|..] == t;
  }

  lemma {:induction false} NatOfPersian(s: string)
    requires AllLatin(s)
    ensures AllDigits(ToPersian(s)) && NatOf(ToPersian(s)) == NatOf(s)
  {
    MapAt(s, PersianChar);
    if s != "" {
      var k := |s| - 1;
      NatOfPersian(s[..k]);
      MapConcat(s[..k], s[k..], PersianChar);
      assert s == s[..k] + s[k..] && ToPersian(s)[..k] == ToPersian(s[..k]);
    }
  }

  lemma CountReadsBack(n: nat, t: string)
    requires !StartsWithDigit(t)
    ensures ReadBack(Count(n) + t) == n * ScaleBehind(t) + ReadBack(t)
  {
    DecimalReadsBack(n);
    NatOfPersian(Decimal(n));
    ReadBackRun(Count(n), t);
  }

  lemma ScaleHasNoDigits(scale: nat)
    ensures forall i :: 0 <= i < |" " + Word(scale)| ==> !IsDigit((" " + Word(scale))[i])
    ensures forall i :: 0 <= i < |Word(scale)| ==> Lower(Word(scale)[i]) == Word(scale)[i]
  {
    match scale
    case 0 => assert " " + Word(scale) == " میلیارد";
    case 1 => assert " " + Word(scale) == " میلیون";
    case _ => assert " " + Word(scale) == " هزار";
  }

  lemma ScaleWordFound(scale: nat, word: string, t: string)
    requires scale < 3 && word == " " + Word(scale)
    ensures ScaleBehind(word + t) == Size(scale) && ReadBack(word + t) == ReadBack(t)
  {
    ScaleHasNoDigits(scale);
    ReadBackSkips(word, t);
    match scale
    case 0 =>
    case 1 => assert (word + t)[5] == 'و' && " میلیارد"[5] == 'ا';
    case 2 => assert (word + t)[1] == 'ه' && " میلیارد"[1] == 'م' && " میلیون"[1] == 'م';
  }

  /** What may follow a part: the joining word or the unit. */
  predicate Behind(t: string) {
    |t| >= 2 && t[0] == ' ' && t[1] in "وت"
  }

  lemma BehindIsNoScale(t: string)
    requires Behind(t)
    ensures ScaleBehind(t) == 1 && !StartsWithDigit(t)
  {
    assert " میلیارد"[1] == 'م' && " میلیون"[1] == 'م' && " هزار"[1] == 'ه';
  }

  lemma PartReadsBack(count: nat, scale: nat, t: string)
    requires scale < 3
    ensures ReadBack(Part(count, scale) + t) == count * Size(scale) + ReadBack(t)
  {
    var word := " " + Word(scale);
    ScaleWordFound(scale, word, t);
    assert Part(count, scale) + t == Count(count) + (word + t);
    assert !StartsWithDigit(word + t);
    CountReadsBack(count, word + t);
  }

  lemma JoinedPart(count: nat, scale: nat, below: seq<string>, t: string)
    requires scale < 3 && Behind(t)
    ensures ReadBack(Join(PartIfAny(count, scale) + below, AND) + t)
         == count * Size(scale) + ReadBack(Join(below, AND) + t)
  {
    var part := Part(count, scale);
    if count == 0 {
      assert PartIfAny(count, scale) + below == below;
    } else if below == [] {
      PartReadsBack(count, scale, t);
      assert "" + t == t && [part] + below == [part];
    } else {
      var others := Join(below, AND) + t;
      JoinedInFront(part, below, t);
      PartReadsBack(count, scale, AND + others);
      ReadBackSkips(AND, others);
    }
  }

  lemma JoinedInFront(part: string, below: seq<string>, t: string)
    requires below != []
    ensures Join([part] + below, AND) + t == part + (AND + (Join(below, AND) + t))
  {
    assert ([part] + below)[1..] == below;
  }

  lemma RestReadsBack(rest: nat, t: string)
    requires Behind(t)
    ensures ReadBack(Join(if rest == 0 then [] else [Count(rest)], AND) + t) == rest + ReadBack(t)
  {
    BehindIsNoScale(t);
    CountReadsBack(rest, t);
    assert "" + t == t;
  }

  lemma CountsReadBack(c0: nat, c1: nat, c2: nat, rest: nat, parts: seq<string>, t: string)
    requires Behind(t)
    requires parts == PartIfAny(c0, 0) + (PartIfAny(c1, 1) + (PartIfAny(c2, 2) + (if rest == 0 then [] else [Count(rest)])))
    ensures ReadBack(Join(parts, AND) + t) == c0 * 1_000_000_000 + (c1 * 1_000_000 + (c2 * 1000 + (rest + ReadBack(t))))
  {
    var last := if rest == 0 then [] else [Count(rest)];
    RestReadsBack(rest, t);
    JoinedPart(c2, 2, last, t);
    JoinedPart(c1, 1, PartIfAny(c2, 2) + last, t);
    JoinedPart(c0, 0, PartIfAny(c1, 1) + (PartIfAny(c2, 2) + last), t);
  }

  lemma PartsInARow(amount: nat)
    ensures Parts(amount)
         == PartIfAny(CountOf(amount, 0), 0)
            + (PartIfAny(CountOf(amount, 1), 1)
               + (PartIfAny(CountOf(amount, 2), 2) + (if Left(amount, 3) == 0 then [] else [Count(Left(amount, 3))])))
  {
  }

  lemma JoinedReadsBack(amount: nat, t: string)
    requires Behind(t)
    ensures ReadBack(Join(Parts(amount), AND) + t) == amount + ReadBack(t)
  {
    PartsInARow(amount);
    CountsReadBack(CountOf(amount, 0), CountOf(amount, 1), CountOf(amount, 2), Left(amount, 3), Parts(amount), t);
    CountsAddUp(amount);
  }

  lemma CountsAddUp(amount: nat)
    ensures CountOf(amount, 0) * Size(0) + CountOf(amount, 1) * Size(1) + CountOf(amount, 2) * Size(2) + Left(amount, 3)
         == amount
  {
  }

  /** The words of an amount say that amount, so that no two amounts are worded alike. */
  lemma WordedReadsBack(amount: nat)
    ensures ReadBack(Worded(amount)) == amount
  {
    UnitReadsAsNothing(" تومان");
    JoinedReadsBack(amount, " تومان");
  }

  lemma UnitReadsAsNothing(unit: string)
    requires unit == " تومان"
    ensures Behind(unit) && ReadBack(unit) == 0 && ReadBack("" + unit) == 0 && ReadBack("۰" + unit) == 0
  {
    assert unit + "" == unit && "" + unit == unit;
    ReadBackSkips(unit, "");
    ReadBackRun("۰", unit);
    assert "۰"[..0] == "";
  }

  lemma WordedIsInjective(a: nat, b: nat)
    requires Worded(a) == Worded(b)
    ensures a == b
  {
    WordedReadsBack(a);
    WordedReadsBack(b);
  }

  //#endregion
}
