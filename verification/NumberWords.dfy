/**
 * integerToPersianWords: a whole number in words, read aloud. A listener who knows the number words and the scales hears
 * the last twelve digits of the number, whatever the number.
 */
module NumberWords {
  import opened Options
  import opened Amounts
  import opened CargoPrice

  const TOP: nat := 1_000_000_000_000

  //#region The words

  function One(d: nat): string {
    match d
    case 1 => "یک" case 2 => "دو" case 3 => "سه" case 4 => "چهار" case 5 => "پنج"
    case 6 => "شش" case 7 => "هفت" case 8 => "هشت" case 9 => "نه" case _ => ""
  }

  function Teen(d: nat): string {
    match d
    case 0 => "ده" case 1 => "یازده" case 2 => "دوازده" case 3 => "سیزده" case 4 => "چهارده"
    case 5 => "پانزده" case 6 => "شانزده" case 7 => "هفده" case 8 => "هجده" case 9 => "نوزده" case _ => ""
  }

  function Ten(d: nat): string {
    match d
    case 2 => "بیست" case 3 => "سی" case 4 => "چهل" case 5 => "پنجاه"
    case 6 => "شصت" case 7 => "هفتاد" case 8 => "هشتاد" case 9 => "نود" case _ => ""
  }

  function Hundred(d: nat): string {
    match d
    case 1 => "صد" case 2 => "دویست" case 3 => "سیصد" case 4 => "چهارصد" case 5 => "پانصد"
    case 6 => "ششصد" case 7 => "هفتصد" case 8 => "هشتصد" case 9 => "نهصد" case _ => ""
  }

  function Scale(scale: nat): string {
    match scale
    case 1 => "هزار" case 2 => "میلیون" case 3 => "میلیارد" case _ => ""
  }

  function HundredsPart(n: nat): seq<string> {
    if n >= 100 then [Hundred(n / 100)] else []
  }

  function TensParts(rest: nat): seq<string> {
    if 10 <= rest < 20 then [Teen(rest - 10)]
    else (if rest >= 20 then [Ten(rest / 10)] else []) + (if rest % 10 != 0 then [One(rest % 10)] else [])
  }

  function Spoken(n: nat): string {
    Join(HundredsPart(n) + TensParts(n % 100), AND)
  }

  method BelowThousand(n: nat) returns (text: string)
    ensures text == Spoken(n)
  {
    var parts: seq<string> := [];
    if n >= 100 {
      parts := parts + [Hundred(n / 100)];
    }
    var rest := n % 100;
    if 10 <= rest < 20 {
      parts := parts + [Teen(rest - 10)];
    } else {
      if rest >= 20 {
        parts := parts + [Ten(rest / 10)];
      }
      if rest % 10 != 0 {
        parts := parts + [One(rest % 10)];
      }
    }
    assert parts == HundredsPart(n) + TensParts(rest);
    text := Join(parts, AND);
  }

  /** A group of three digits with its scale word; one thousand is just "thousand". */
  function SectionText(group: nat, scale: nat): string {
    if scale == 1 && group == 1 then Scale(1)
    else if scale == 0 then Spoken(group)
    else Spoken(group) + " " + Scale(scale)
  }

  function Section(group: nat, scale: nat): seq<string> {
    if group == 0 then [] else [SectionText(group, scale)]
  }

  /** The number without its last groups. */
  function Shifted(n: nat, groups: nat): nat {
    match groups
    case 0 => n
    case 1 => n / 1000
    case 2 => n / 1000 / 1000
    case 3 => n / 1000 / 1000 / 1000
    case _ => n / 1000 / 1000 / 1000 / 1000
  }

  /** The last groups of a number, the highest first. */
  function Sections(n: nat, groups: nat): seq<string> {
    (if groups > 3 then Section(Shifted(n, 3) % 1000, 3) else [])
    + ((if groups > 2 then Section(Shifted(n, 2) % 1000, 2) else [])
       + ((if groups > 1 then Section(Shifted(n, 1) % 1000, 1) else [])
          + (if groups > 0 then Section(n % 1000, 0) else [])))
  }

  function InWords(n: nat): string {
    if n == 0 then "صفر" else Join(Sections(n, 4), AND)
  }

  method IntegerToPersianWords(value: int) returns (text: string)
    ensures text == InWords(if value < 0 then -value else value)
  {
    var n: nat := if value < 0 then -value else value;
    ghost var whole := n;
    if n == 0 {
      return "صفر";
    }
    var groups: seq<string> := [];
    var scale := 0;
    while n > 0 && scale < 4
      invariant 0 <= scale <= 4
      invariant n == Shifted(whole, scale) && groups == Sections(whole, scale)
      decreases 4 - scale
    {
      var group := n % 1000;
      SectionsStep(whole, scale);
      if group != 0 {
        if scale == 1 && group == 1 {
          groups := [Scale(1)] + groups;
        } else {
          var words := BelowThousand(group);
          groups := [if scale == 0 then words else words + " " + Scale(scale)] + groups;
        }
      }
      n := n / 1000;
      scale := scale + 1;
    }
    NoSectionsLeft(whole, scale);
    text := Join(groups, AND);
  }

  lemma SectionsStep(n: nat, scale: nat)
    requires scale < 4
    ensures Sections(n, scale + 1) == Section(Shifted(n, scale) % 1000, scale) + Sections(n, scale)
    ensures Shifted(n, scale + 1) == Shifted(n, scale) / 1000
  {
  }

  lemma {:induction false} NoSectionsLeft(n: nat, scale: nat)
    requires scale <= 4 && (Shifted(n, scale) == 0 || scale == 4)
    ensures Sections(n, scale) == Sections(n, 4)
    decreases 4 - scale
  {
    if scale < 4 {
      SectionsStep(n, scale);
      NoSectionsLeft(n, scale + 1);
    }
  }

  //#endregion

  //#region Words split again

  /** A word the reader of prices knows, with its value. */
  predicate Means(word: string, value: nat) {
    WordValue(word) == Some(value) && IsWord(word)
  }

  predicate IsWord(word: string) {
    word != "" && forall i :: 0 <= i < |word| ==> !IsSpace(word[i])
  }

  lemma OneMeans(d: nat)
    requires 1 <= d <= 9
    ensures Means(One(d), d)
  {
    match d
    case 1 => case 2 => case 3 => case 4 => case 5 => case 6 => case 7 => case 8 => case 9 =>
  }

  lemma TeenMeans(d: nat)
    requires d <= 9
    ensures Means(Teen(d), 10 + d)
  {
    match d
    case 0 => case 1 => case 2 => case 3 => case 4 => case 5 => case 6 => case 7 => case 8 => case 9 =>
  }

  lemma TenMeans(d: nat)
    requires 2 <= d <= 9
    ensures Means(Ten(d), 10 * d)
  {
    match d
    case 2 => case 3 => case 4 => case 5 => case 6 => case 7 => case 8 => case 9 =>
  }

  lemma HundredMeans(d: nat)
    requires 1 <= d <= 9
    ensures Means(Hundred(d), 100 * d)
  {
    match d
    case 1 => case 2 => case 3 => case 4 => case 5 => case 6 => case 7 => case 8 => case 9 =>
  }

  lemma {:induction false} WordLengthOf(word: string, t: string)
    requires IsWord(word) || word == ""
    requires t == "" || IsSpace(t[0])
    ensures WordLength(word + t) == |word|
  {
    if word == "" {
      assert word + t == t;
    } else {
      WordLengthOf(word[1..], t);
      assert (word + t)[1..] == word[1..] + t;
    }
  }

  lemma WordThen(word: string, t: string)
    requires IsWord(word) && (t == "" || IsSpace(t[0]))
    ensures WordsOf(word + t) == [word] + WordsOf(t)
  {
    WordLengthOf(word, t);
    assert (word + t)[..|word|] == word && (word + t)[|word|..] == t;
  }

  lemma AndThen(t: string)
    ensures WordsOf(AND + t) == ["و"] + WordsOf(t)
  {
    assert AND + t == " " + ("و" + (" " + t));
    assert (" " + ("و" + (" " + t)))[1..] == "و" + (" " + t);
    WordThen("و", " " + t);
    assert (" " + t)[1..] == t;
  }

  lemma {:induction false} WordsOfConcat(s: string, t: string)
    requires t == "" || IsSpace(t[0])
    ensures WordsOf(s + t) == WordsOf(s) + WordsOf(t)
    decreases |s|
  {
    if s == "" {
      assert s + t == t;
    } else if IsSpace(s[0]) {
      WordsOfConcat(s[1..], t);
      assert (s + t)[1..] == s[1..] + t;
    } else {
      var n := WordLength(s);
      WordRunIsMaximal(s);
      WordsOfConcat(s[n..], t);
      WordBefore(s[..n], s[n..], s, t);
    }
  }

  lemma WordBefore(word: string, rest: string, s: string, t: string)
    requires s == word + rest && IsWord(word)
    requires (rest == "" || IsSpace(rest[0])) && (t == "" || IsSpace(t[0]))
    requires WordsOf(rest + t) == WordsOf(rest) + WordsOf(t)
    ensures WordsOf(s + t) == WordsOf(s) + WordsOf(t)
  {
    WordThen(word, rest);
    WordThen(word, rest + t);
    Regroup(word, rest, t);
    Regroup([word], WordsOf(rest), WordsOf(t));
  }

  lemma Regroup<T>(a: seq<T>, b: seq<T>, c: seq<T>)
    ensures a + b + c == a + (b + c)
  {
  }

  lemma {:induction false} WordRunIsMaximal(s: string)
    requires s != "" && !IsSpace(s[0])
    ensures IsWord(s[..WordLength(s)]) && (WordLength(s) < |s| ==> IsSpace(s[WordLength(s)]))
    decreases |s|
  {
    if |s| > 1 && !IsSpace(s[1]) {
      WordRunIsMaximal(s[1..]);
      var n := WordLength(s);
      forall i | 0 <= i < n ensures !IsSpace(s[..n][i]) {
        if i > 0 { assert s[i] == s[1..][..n - 1][i - 1]; }
      }
    }
  }

  //#endregion

  //#region Listening

  /** What has been heard: the groups with a scale, and the words since. The listener knows the three scales by their words. */
  datatype Heard = Heard(total: nat, group: nat)

  function Hear(h: Heard, word: string): Heard {
    if word == "هزار" then Heard(h.total + (if h.group == 0 then 1 else h.group) * 1000, 0)
    else if word == "میلیون" then Heard(h.total + h.group * 1_000_000, 0)
    else if word == "میلیارد" then Heard(h.total + h.group * 1_000_000_000, 0)
    else h.(group := h.group + WordValue(word).GetOr(0))
  }

  function HearAll(h: Heard, words: seq<string>): Heard
    decreases |words|
  {
    if words == [] then h else HearAll(Hear(h, words[0]), words[1..])
  }

  function Meaning(text: string): nat {
    var h := HearAll(Heard(0, 0), WordsOf(text));
    h.total + h.group
  }

  lemma {:induction false} HearConcat(h: Heard, a: seq<string>, b: seq<string>)
    ensures HearAll(h, a + b) == HearAll(HearAll(h, a), b)
    decreases |a|
  {
    if a == [] {
      assert a + b == b;
    } else {
      HearConcat(Hear(h, a[0]), a[1..], b);
      assert (a + b)[1..] == a[1..] + b;
    }
  }

  lemma ScalesAreNoNumbers()
    ensures WordValue(Scale(1)) == None && WordValue(Scale(2)) == None && WordValue(Scale(3)) == None
    ensures WordValue("و") == None && WordValue("صفر") == None
  {
  }

  lemma ScalesDiffer()
    ensures Scale(1) != Scale(2) && Scale(1) != Scale(3) && Scale(2) != Scale(3)
    ensures IsWord(Scale(1)) && IsWord(Scale(2)) && IsWord(Scale(3)) && IsWord("و") && IsWord("صفر")
    ensures "و" !in [Scale(1), Scale(2), Scale(3)] && "صفر" !in [Scale(1), Scale(2), Scale(3)]
  {
    assert Scale(1)[0] == 'ه' && Scale(2)[4] == 'و' && Scale(3)[4] == 'ا';
  }

  lemma HearNumber(h: Heard, word: string, value: nat)
    requires Means(word, value)
    ensures Hear(h, word) == h.(group := h.group + value)
  {
    ScalesAreNoNumbers();
  }

  lemma HearAnd(h: Heard)
    ensures Hear(h, "و") == h
  {
    ScalesAreNoNumbers();
    ScalesDiffer();
  }

  //#endregion

  //#region Groups heard

  predicate AllMean(parts: seq<string>) {
    forall i :: 0 <= i < |parts| ==> Means(parts[i], WordValue(parts[i]).GetOr(0))
  }

  lemma {:induction false} SumConcat(a: seq<string>, b: seq<string>)
    ensures Sum(a + b) == Sum(a) + Sum(b)
    decreases |a|
  {
    if a == [] {
      assert a + b == b;
    } else {
      SumConcat(a[1..], b);
      assert (a + b)[1..] == a[1..] + b;
    }
  }

  lemma SumOne(word: string, value: nat)
    requires Means(word, value)
    ensures Sum([word]) == value && AllMean([word])
  {
    assert [word][1..] == [];
  }

  lemma HundredsAddUp(n: nat)
    requires n < 1000
    ensures AllMean(HundredsPart(n)) && Sum(HundredsPart(n)) == n / 100 * 100
  {
    if n >= 100 {
      HundredMeans(n / 100);
      SumOne(Hundred(n / 100), 100 * (n / 100));
    }
  }

  lemma TensAddUp(rest: nat)
    requires rest < 100
    ensures AllMean(TensParts(rest)) && Sum(TensParts(rest)) == rest && (rest > 0 ==> TensParts(rest) != [])
  {
    if 10 <= rest < 20 {
      TeenMeans(rest - 10);
      SumOne(Teen(rest - 10), rest);
    } else {
      var tens := if rest >= 20 then [Ten(rest / 10)] else [];
      var ones := if rest % 10 != 0 then [One(rest % 10)] else [];
      if rest >= 20 {
        TenMeans(rest / 10);
        SumOne(Ten(rest / 10), 10 * (rest / 10));
      }
      if rest % 10 != 0 {
        OneMeans(rest % 10);
        SumOne(One(rest % 10), rest % 10);
      }
      SumConcat(tens, ones);
    }
  }

  lemma GroupAddsUp(n: nat)
    requires 0 < n < 1000
    ensures var parts := HundredsPart(n) + TensParts(n % 100);
            AllMean(parts) && Sum(parts) == n && parts != []
  {
    HundredsAddUp(n);
    TensAddUp(n % 100);
    SumConcat(HundredsPart(n), TensParts(n % 100));
  }

  lemma JoinedWords(word: string, others: seq<string>)
    requires IsWord(word)
    ensures WordsOf(Join([word] + others, AND))
         == [word] + if others == [] then [] else ["و"] + WordsOf(Join(others, AND))
  {
    if others == [] {
      assert [word] + others == [word] && word + "" == word;
      WordThen(word, "");
    } else {
      var below := Join(others, AND);
      assert ([word] + others)[1..] == others;
      assert Join([word] + others, AND) == word + (AND + below);
      WordThen(word, AND + below);
      AndThen(below);
    }
  }

  /** A group's words, split again: they add up, with or without the scales' rules. */
  lemma {:induction false} JoinedHeard(h: Heard, parts: seq<string>)
    requires AllMean(parts) && parts != []
    ensures HearAll(h, WordsOf(Join(parts, AND))) == h.(group := h.group + Sum(parts))
    ensures Sum(WordsOf(Join(parts, AND))) == Sum(parts) && AnyNumber(WordsOf(Join(parts, AND)))
    decreases |parts|
  {
    var word, others := parts[0], parts[1..];
    assert parts == [word] + others;
    JoinedWords(word, others);
    HearNumber(h, word, WordValue(word).GetOr(0));
    assert WordsOf(Join(parts, AND))[0] == word;
    if others == [] {
      assert [word] + [] == [word] && [word][1..] == [];
    } else {
      JoinedHeard(Hear(h, word), others);
      HeardBehind(h, word, WordsOf(Join(others, AND)));
    }
  }

  lemma HeardBehind(h: Heard, word: string, below: seq<string>)
    ensures HearAll(h, [word] + (["و"] + below)) == HearAll(Hear(h, word), below)
    ensures Sum([word] + (["و"] + below)) == WordValue(word).GetOr(0) + Sum(below)
  {
    HearAnd(Hear(h, word));
    ScalesAreNoNumbers();
    assert ([word] + (["و"] + below))[1..] == ["و"] + below && (["و"] + below)[1..] == below;
  }

  /** The reader of prices recovers every group from its words. */
  lemma WordsValueRecoversGroups(n: nat)
    requires 0 < n < 1000
    ensures WordsValue(Spoken(n)) == Some(n)
  {
    GroupAddsUp(n);
    JoinedHeard(Heard(0, 0), HundredsPart(n) + TensParts(n % 100));
  }

  lemma GroupHeard(h: Heard, n: nat)
    requires 0 < n < 1000
    ensures HearAll(h, WordsOf(Spoken(n))) == h.(group := h.group + n)
  {
    GroupAddsUp(n);
    JoinedHeard(h, HundredsPart(n) + TensParts(n % 100));
  }

  function Weight(scale: nat): nat {
    match scale
    case 0 => 1
    case 1 => 1000
    case 2 => 1_000_000
    case _ => 1_000_000_000
  }

  function HeardSection(h: Heard, group: nat, scale: nat): Heard {
    if scale == 0 then h.(group := h.group + group) else h.(total := h.total + group * Weight(scale))
  }

  lemma HearScale(h: Heard, scale: nat)
    requires 1 <= scale <= 3 && h.group > 0
    ensures Hear(h, Scale(scale)) == Heard(h.total + h.group * Weight(scale), 0)
  {
    ScalesDiffer();
  }

  lemma HearOneThousand(h: Heard)
    requires h.group == 0
    ensures HearAll(h, WordsOf(Scale(1))) == Heard(h.total + 1000, 0)
  {
    ScalesDiffer();
    WordThen(Scale(1), "");
    assert Scale(1) + "" == Scale(1) && WordsOf("") == [];
    assert [Scale(1)][1..] == [];
  }

  lemma SectionHeard(h: Heard, group: nat, scale: nat)
    requires 0 < group < 1000 && scale <= 3 && h.group == 0
    ensures HearAll(h, WordsOf(SectionText(group, scale))) == HeardSection(h, group, scale)
  {
    if scale == 1 && group == 1 {
      HearOneThousand(h);
    } else {
      GroupHeard(h, group);
      if scale > 0 {
        ScaledHeard(h, Spoken(group), group, scale, Scale(scale));
      }
    }
  }

  lemma ScaledHeard(h: Heard, words: string, group: nat, scale: nat, word: string)
    requires HearAll(h, WordsOf(words)) == h.(group := group) && h.group == 0 && group > 0
    requires 1 <= scale <= 3 && word == Scale(scale)
    ensures HearAll(h, WordsOf(words + " " + word)) == HeardSection(h, group, scale)
  {
    ScalesDiffer();
    HearScale(h.(group := group), scale);
    assert words + " " + word == words + (" " + word) && (" " + word)[1..] == word && word + "" == word;
    WordsOfConcat(words, " " + word);
    WordThen(word, "");
    assert WordsOf(" " + word) == [word];
    HearConcat(h, WordsOf(words), [word]);
    assert HearAll(h.(group := group), [word]) == Hear(h.(group := group), word) by {
      assert [word][1..] == [];
    }
  }

  //#endregion

  //#region Numbers heard

  lemma SectionBefore(h: Heard, group: nat, scale: nat, below: seq<string>)
    requires group < 1000 && scale <= 3 && h.group == 0
    ensures HearAll(h, WordsOf(Join(Section(group, scale) + below, AND)))
         == HearAll(HeardSection(h, group, scale), WordsOf(Join(below, AND)))
  {
    var text := SectionText(group, scale);
    if group == 0 {
      assert Section(group, scale) + below == below;
    } else if below == [] {
      SectionHeard(h, group, scale);
      assert [text] + below == [text];
    } else {
      SectionHeard(h, group, scale);
      TextBefore(h, text, below);
    }
  }

  lemma TextBefore(h: Heard, text: string, below: seq<string>)
    requires below != []
    ensures HearAll(h, WordsOf(Join([text] + below, AND))) == HearAll(HearAll(h, WordsOf(text)), WordsOf(Join(below, AND)))
  {
    var others := Join(below, AND);
    assert ([text] + below)[1..] == below;
    assert Join([text] + below, AND) == text + (AND + others);
    WordsOfConcat(text, AND + others);
    AndThen(others);
    HearConcat(h, WordsOf(text), ["و"] + WordsOf(others));
    HearAnd(HearAll(h, WordsOf(text)));
    assert (["و"] + WordsOf(others))[1..] == WordsOf(others);
  }

  lemma RemainderIs(n: nat, q: nat, r: nat)
    ensures n == TOP * q + r && r < TOP ==> n % TOP == r
  {
  }

  lemma DigitsAddUp(n: nat)
    ensures Shifted(n, 3) % 1000 * Weight(3) + Shifted(n, 2) % 1000 * Weight(2) + Shifted(n, 1) % 1000 * Weight(1) + n % 1000
         == n % TOP
  {
    var q1 := n / 1000;
    var q2 := q1 / 1000;
    var q3 := q2 / 1000;
    var q4 := q3 / 1000;
    var g0, g1, g2, g3 := n % 1000, q1 % 1000, q2 % 1000, q3 % 1000;
    assert n == 1000 * q1 + g0 && q1 == 1000 * q2 + g1 && q2 == 1000 * q3 + g2 && q3 == 1000 * q4 + g3;
    var r := g3 * 1_000_000_000 + g2 * 1_000_000 + g1 * 1000 + g0;
    assert n == TOP * q4 + r && 0 <= r < TOP;
    RemainderIs(n, q4, r);
  }

  lemma SectionsHeard(g3: nat, g2: nat, g1: nat, g0: nat, sections: seq<string>)
    requires g3 < 1000 && g2 < 1000 && g1 < 1000 && g0 < 1000
    requires sections == Section(g3, 3) + (Section(g2, 2) + (Section(g1, 1) + Section(g0, 0)))
    ensures Meaning(Join(sections, AND)) == g3 * Weight(3) + g2 * Weight(2) + g1 * Weight(1) + g0
  {
    var s1 := Section(g1, 1) + Section(g0, 0);
    var s2 := Section(g2, 2) + s1;
    var h3 := HeardSection(Heard(0, 0), g3, 3);
    var h2 := HeardSection(h3, g2, 2);
    var h1 := HeardSection(h2, g1, 1);
    SectionBefore(Heard(0, 0), g3, 3, s2);
    SectionBefore(h3, g2, 2, s1);
    SectionBefore(h2, g1, 1, Section(g0, 0));
    SectionBefore(h1, g0, 0, []);
    assert Section(g0, 0) + [] == Section(g0, 0);
  }

  /** The words say the last twelve digits of the number, and nothing else of it. */
  lemma WordsMeanLastTwelveDigits(n: nat)
    ensures Meaning(InWords(n)) == n % TOP
  {
    if n == 0 {
      ZeroMeansNothing("صفر");
    } else {
      SectionsHeard(Shifted(n, 3) % 1000, Shifted(n, 2) % 1000, Shifted(n, 1) % 1000, n % 1000, Sections(n, 4));
      DigitsAddUp(n);
    }
  }

  lemma ZeroMeansNothing(zero: string)
    requires zero == "صفر"
    ensures Meaning(zero) == 0
  {
    ScalesDiffer();
    ScalesAreNoNumbers();
    WordThen(zero, "");
    assert zero + "" == zero && [zero][1..] == [];
  }

  lemma SameBelowTop(n: nat)
    ensures n % TOP == n <==> n < TOP
  {
  }

  /** A listener recovers the number exactly when it has at most twelve digits. */
  lemma WordsAreDecodable(n: nat)
    ensures Meaning(InWords(n)) == n <==> n < TOP
  {
    SameBelowTop(n);
    WordsMeanLastTwelveDigits(n);
  }

  lemma WordsAreInjective(a: nat, b: nat)
    requires a < TOP && b < TOP && InWords(a) == InWords(b)
    ensures a == b
  {
    WordsAreDecodable(a);
    WordsAreDecodable(b);
  }

  /** A number past the scales whose last twelve digits are zeros is read as silence. */
  lemma SilentNumbers(n: nat)
    ensures InWords(n) == "" <==> n > 0 && n % TOP == 0
  {
    WordsMeanLastTwelveDigits(n);
    if n > 0 && n % TOP == 0 {
      DigitsAddUp(n);
      assert Sections(n, 4) == [];
    } else if n % TOP != 0 {
      assert Meaning("") == 0;
    }
  }

  //#endregion
}
