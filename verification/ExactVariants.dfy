/** `countVariants` against the texts `spin` can return: an upper bound, and when it is exact. */
module ExactVariants {
  import opened Seqs
  import opened Template
  import opened Document
  import opened Parser
  import opened Rewriting
  import opened Spintax
  import opened SpinMeaning
  import opened Variants

  // ---------------------------------------------------------------- the texts of a template

  /** The different texts a tree stands for. */
  function Texts(d: Doc, fields: seq<string>): set<string> {
    match d
    case End => {""}
    case Lit(t, rest) => Concats({Meaning(t, fields)}, Texts(rest, fields))
    case Group(a, rest) => Concats(TextsAlts(a, fields), Texts(rest, fields))
  }

  function TextsAlts(a: Alts, fields: seq<string>): set<string> {
    match a
    case One(d) => Texts(d, fields)
    case More(d, tail) => Texts(d, fields) + TextsAlts(tail, fields)
  }

  function Concats(xs: set<string>, ys: set<string>): set<string> {
    set x, y | x in xs && y in ys :: x + y
  }

  lemma InConcats(xs: set<string>, ys: set<string>, x: string, y: string)
    requires x in xs && y in ys
    ensures x + y in Concats(xs, ys)
  {
  }

  lemma FromConcats(xs: set<string>, ys: set<string>, z: string) returns (x: string, y: string)
    requires z in Concats(xs, ys)
    ensures x in xs && y in ys && z == x + y
  {
    x, y :| x in xs && y in ys && z == x + y;
  }

  /** Every rendering is among the texts, */
  lemma {:induction false} TextsComplete(d: Doc, v: seq<Tok>, fields: seq<string>)
    requires Denotes(d, v)
    ensures Expand(v, fields) in Texts(d, fields)
    decreases d
  {
    hide Expand, Meaning, Concats;
    match d
    case End => ExpandNil(fields);
    case Lit(t, rest) =>
      TextsComplete(rest, v[1..], fields);
      Uncons(v);
      ExpandCons(t, v[1..], fields);
      InConcats({Meaning(t, fields)}, Texts(rest, fields), Meaning(t, fields), Expand(v[1..], fields));
    case Group(a, rest) =>
      var n :| 0 <= n <= |v| && DenotesAlt(a, v[..n]) && Denotes(rest, v[n..]);
      TextsAltsComplete(a, v[..n], fields);
      TextsComplete(rest, v[n..], fields);
      assert v == v[..n] + v[n..];
      ExpandConcat(v[..n], v[n..], fields);
      InConcats(TextsAlts(a, fields), Texts(rest, fields), Expand(v[..n], fields), Expand(v[n..], fields));
  }

  lemma {:induction false} TextsAltsComplete(a: Alts, v: seq<Tok>, fields: seq<string>)
    requires DenotesAlt(a, v)
    ensures Expand(v, fields) in TextsAlts(a, fields)
    decreases a
  {
    hide Expand, Texts;
    match a
    case One(d) => TextsComplete(d, v, fields);
    case More(d, tail) =>
      if Denotes(d, v) {
        TextsComplete(d, v, fields);
      } else {
        TextsAltsComplete(tail, v, fields);
      }
  }

  /** and nothing else is. */
  lemma {:induction false} TextsSound(d: Doc, out: string, fields: seq<string>) returns (v: seq<Tok>)
    requires out in Texts(d, fields)
    ensures Denotes(d, v) && Expand(v, fields) == out
    decreases d
  {
    hide Expand, Meaning, Concats;
    match d
    case End =>
      v := [];
      ExpandNil(fields);
    case Lit(t, rest) =>
      var x, y := FromConcats({Meaning(t, fields)}, Texts(rest, fields), out);
      var w := TextsSound(rest, y, fields);
      v := [t] + w;
      ExpandCons(t, w, fields);
      assert v[1..] == w;
    case Group(a, rest) =>
      var x, y := FromConcats(TextsAlts(a, fields), Texts(rest, fields), out);
      var u := TextsAltsSound(a, x, fields);
      var w := TextsSound(rest, y, fields);
      v := u + w;
      ExpandConcat(u, w, fields);
      Parts(u, w);
      assert v[..|u|] == u && v[|u|..] == w;
  }

  lemma {:induction false} TextsAltsSound(a: Alts, out: string, fields: seq<string>) returns (v: seq<Tok>)
    requires out in TextsAlts(a, fields)
    ensures DenotesAlt(a, v) && Expand(v, fields) == out
    decreases a
  {
    hide Expand, Texts;
    match a
    case One(d) => v := TextsSound(d, out, fields);
    case More(d, tail) =>
      if out in Texts(d, fields) {
        v := TextsSound(d, out, fields);
      } else {
        v := TextsAltsSound(tail, out, fields);
      }
  }

  lemma {:induction false} TextsNonempty(d: Doc, fields: seq<string>)
    ensures |Texts(d, fields)| > 0
    decreases d
  {
    hide Meaning, Concats;
    match d
    case End =>
    case Lit(t, rest) =>
      TextsNonempty(rest, fields);
      var y :| y in Texts(rest, fields);
      InConcats({Meaning(t, fields)}, Texts(rest, fields), Meaning(t, fields), y);
    case Group(a, rest) =>
      TextsAltsNonempty(a, fields);
      TextsNonempty(rest, fields);
      var x :| x in TextsAlts(a, fields);
      var y :| y in Texts(rest, fields);
      InConcats(TextsAlts(a, fields), Texts(rest, fields), x, y);
  }

  lemma {:induction false} TextsAltsNonempty(a: Alts, fields: seq<string>)
    ensures |TextsAlts(a, fields)| > 0
    decreases a
  {
    hide Texts;
    TextsNonempty(a.d, fields);
    var x :| x in Texts(a.d, fields);
    assert x in TextsAlts(a, fields);
  }

  // ---------------------------------------------------------------- sizes of sets of texts

  lemma UnionSize<A>(xs: set<A>, ys: set<A>)
    ensures |xs + ys| <= |xs| + |ys|
    ensures |xs + ys| == |xs| + |ys| <==> xs !! ys
  {
    assert |xs + ys| + |xs * ys| == |xs| + |ys|;
    if |xs * ys| == 0 {
      assert xs * ys == {};
      assert forall x :: x in xs && x in ys ==> x in xs * ys;
    } else {
      var x :| x in xs * ys;
    }
  }

  /** A text of `xs` before one of `ys` can be split in one way only. */
  ghost predicate Unambiguous(xs: set<string>, ys: set<string>) {
    forall x, x', y, y' :: x in xs && x' in xs && y in ys && y' in ys && x + y == x' + y' ==> x == x'
  }

  lemma {:induction false} PrefixSize(x: string, ys: set<string>)
    ensures |Concats({x}, ys)| == |ys|
    decreases |ys|
  {
    if ys == {} {
      assert Concats({x}, ys) == {};
    } else {
      var y :| y in ys;
      PrefixSize(x, ys - {y});
      OneMoreText(x, y, ys);
    }
  }

  lemma OneMoreText(x: string, y: string, ys: set<string>)
    requires y in ys
    ensures Concats({x}, ys) == Concats({x}, ys - {y}) + {x + y}
    ensures x + y !in Concats({x}, ys - {y})
  {
    if x + y in Concats({x}, ys - {y}) {
      var x', y' := FromConcats({x}, ys - {y}, x + y);
      Cancel(x, y, y');
    }
    forall z ensures z in Concats({x}, ys) <==> z in Concats({x}, ys - {y}) + {x + y} {
    }
  }

  lemma ConcatsSplit(x: string, xs: set<string>, ys: set<string>)
    requires x in xs
    ensures Concats(xs, ys) == Concats(xs - {x}, ys) + Concats({x}, ys)
  {
  }

  lemma UnambiguousSplit(x: string, xs: set<string>, ys: set<string>)
    requires x in xs
    ensures Unambiguous(xs, ys)
            <==> Unambiguous(xs - {x}, ys) && Concats(xs - {x}, ys) !! Concats({x}, ys)
  {
    if Unambiguous(xs, ys) {
      forall z | z in Concats(xs - {x}, ys) ensures z !in Concats({x}, ys) {
        if z in Concats({x}, ys) {
          var u, y := FromConcats(xs - {x}, ys, z);
          var w, y' := FromConcats({x}, ys, z);
        }
      }
    } else {
      var u, u', y, y' :| u in xs && u' in xs && y in ys && y' in ys && u + y == u' + y' && u != u';
      if u == x {
        InConcats(xs - {x}, ys, u', y');
        InConcats({x}, ys, x, y);
      } else if u' == x {
        InConcats(xs - {x}, ys, u, y);
        InConcats({x}, ys, x, y');
      }
    }
  }

  lemma {:induction false} ConcatsSize(xs: set<string>, ys: set<string>)
    ensures |Concats(xs, ys)| <= Times(|xs|, |ys|)
    ensures |Concats(xs, ys)| == Times(|xs|, |ys|) <==> Unambiguous(xs, ys)
    decreases |xs|
  {
    hide Times, Concats, Unambiguous;
    if xs == {} {
      ConcatsNone(ys);
    } else {
      var x :| x in xs;
      ConcatsSize(xs - {x}, ys);
      ConcatsSplit(x, xs, ys);
      UnambiguousSplit(x, xs, ys);
      PrefixSize(x, ys);
      UnionSize(Concats(xs - {x}, ys), Concats({x}, ys));
      assert |xs| == |xs - {x}| + 1;
      TimesLaws(|xs - {x}|, 1, |ys|);
      OneTimes(|ys|);
    }
  }

  lemma ConcatsNone(ys: set<string>)
    ensures Concats({}, ys) == {} && Unambiguous({}, ys) && Times(0, |ys|) == 0
  {
  }

  // ---------------------------------------------------------------- the ways to choose

  /** The number of ways to choose: one alternative of a group excludes the others. */
  function Ways(d: Doc): (n: nat)
    ensures n > 0
  {
    match d
    case End => 1
    case Lit(_, rest) => Ways(rest)
    case Group(a, rest) => Times(WaysAlts(a), Ways(rest))
  }

  function WaysAlts(a: Alts): (n: nat)
    ensures n >= Count(a)
  {
    match a
    case One(d) => Ways(d)
    case More(d, tail) => Ways(d) + WaysAlts(tail)
  }

  predicate HasChoice(d: Doc) {
    match d
    case End => false
    case Lit(_, rest) => HasChoice(rest)
    case Group(a, rest) => a.More? || HasChoiceAlts(a) || HasChoice(rest)
  }

  predicate HasChoiceAlts(a: Alts) {
    match a
    case One(d) => HasChoice(d)
    case More(d, tail) => HasChoice(d) || HasChoiceAlts(tail)
  }

  /** A choice stands inside an alternative of another. */
  predicate Nested(d: Doc) {
    match d
    case End => false
    case Lit(_, rest) => Nested(rest)
    case Group(a, rest) => (if a.One? then Nested(a.d) else HasChoiceAlts(a)) || Nested(rest)
  }

  lemma TimesOne(x: nat, y: nat)
    requires x > 0 && y > 0
    ensures Times(x, y) == 1 <==> x == 1 && y == 1
  {
    if x == 1 || y == 1 {
      assert x * y == x || x * y == y;
    }
  }

  /** The count says one exactly when there is no choice at all. */
  lemma {:induction false} NoChoice(d: Doc)
    ensures Choices(d) == 1 <==> !HasChoice(d)
    decreases d
  {
    hide Times;
    match d
    case End =>
    case Lit(_, rest) => NoChoice(rest);
    case Group(a, rest) =>
      NoChoiceAlts(a);
      NoChoice(rest);
      TimesOne(ChoicesAlts(a), Choices(rest));
      TimesOne(Count(a), Times(ChoicesAlts(a), Choices(rest)));
  }

  lemma {:induction false} NoChoiceAlts(a: Alts)
    ensures ChoicesAlts(a) == 1 <==> !HasChoiceAlts(a)
    decreases a
  {
    hide Times;
    NoChoice(a.d);
    if a.More? {
      NoChoiceAlts(a.tail);
      TimesOne(Choices(a.d), ChoicesAlts(a.tail));
    }
  }

  /** Smaller factors make a smaller product, unless none is smaller. */
  lemma TimesEqual(x: nat, y: nat, x': nat, y': nat)
    requires 0 < x <= x' && 0 < y <= y'
    ensures Times(x, y) <= Times(x', y')
    ensures Times(x, y) == Times(x', y') <==> x == x' && y == y'
  {
    assert x * y <= x' * y <= x' * y';
    if x < x' {
      assert x * y < x' * y;
    } else if y < y' {
      assert x' * y < x' * y';
    }
  }

  /** The count bounds the ways to choose, and is exact where no choice is nested in another. */
  lemma {:induction false} WaysBelowChoices(d: Doc)
    ensures Ways(d) <= Choices(d)
    ensures Ways(d) == Choices(d) <==> !Nested(d)
    decreases d
  {
    hide Times;
    match d
    case End =>
    case Lit(_, rest) => WaysBelowChoices(rest);
    case Group(a, rest) =>
      WaysBelowChoicesAlts(a);
      WaysBelowChoices(rest);
      TimesEqual(WaysAlts(a), Ways(rest), Times(Count(a), ChoicesAlts(a)), Choices(rest));
      TimesLaws(Count(a), ChoicesAlts(a), Choices(rest));
      NoChoiceAlts(a);
  }

  lemma {:induction false} WaysBelowChoicesAlts(a: Alts)
    ensures WaysAlts(a) <= Times(Count(a), ChoicesAlts(a))
    ensures WaysAlts(a) == Times(Count(a), ChoicesAlts(a))
            <==> if a.One? then !Nested(a.d) else ChoicesAlts(a) == 1
    decreases a
  {
    hide Times;
    match a
    case One(d) =>
      WaysBelowChoices(d);
      OneTimes(Choices(d));
    case More(d, tail) =>
      WaysBelowChoices(d);
      WaysBelowChoicesAlts(tail);
      SumBelow(Ways(d), Choices(d), WaysAlts(tail), Count(tail), ChoicesAlts(tail));
  }

  lemma SumBelow(w: nat, c: nat, ws: nat, n: nat, p: nat)
    requires 0 < w <= c && 0 < n <= ws <= Times(n, p) && p > 0
    ensures w + ws <= Times(1 + n, Times(c, p))
    ensures w + ws == Times(1 + n, Times(c, p)) <==> Times(c, p) == 1
  {
    var q := Times(c, p);
    TimesOne(c, p);
    TimesLaws(1, n, q);
    OneTimes(q);
    TimesEqual(n, p, n, q);
    TimesEqual(n, 1, n, q);
    TimesLaws(n, 1, 1);
    if p > 1 {
      TimesEqual(c, 1, c, p);
      TimesLaws(c, 1, 1);
    } else {
      TimesLaws(c, 1, 1);
    }
  }

  // ---------------------------------------------------------------- when no two ways give one text

  /** In every group the alternatives have different texts, and what follows blurs no difference. */
  ghost predicate Clear(d: Doc, fields: seq<string>) {
    match d
    case End => true
    case Lit(_, rest) => Clear(rest, fields)
    case Group(a, rest) =>
      ClearAlts(a, fields) && Clear(rest, fields) && Unambiguous(TextsAlts(a, fields), Texts(rest, fields))
  }

  ghost predicate ClearAlts(a: Alts, fields: seq<string>) {
    match a
    case One(d) => Clear(d, fields)
    case More(d, tail) =>
      Clear(d, fields) && ClearAlts(tail, fields) && Texts(d, fields) !! TextsAlts(tail, fields)
  }

  /** There are at most as many texts as ways, and as many exactly when no two ways give one text. */
  lemma {:induction false} TextsBelowWays(d: Doc, fields: seq<string>)
    ensures |Texts(d, fields)| <= Ways(d)
    ensures |Texts(d, fields)| == Ways(d) <==> Clear(d, fields)
    decreases d
  {
    hide Times, Unambiguous, Meaning, Concats;
    match d
    case End =>
    case Lit(t, rest) =>
      TextsBelowWays(rest, fields);
      PrefixSize(Meaning(t, fields), Texts(rest, fields));
    case Group(a, rest) =>
      TextsAltsBelowWays(a, fields);
      TextsBelowWays(rest, fields);
      TextsAltsNonempty(a, fields);
      TextsNonempty(rest, fields);
      ConcatsSize(TextsAlts(a, fields), Texts(rest, fields));
      TimesEqual(|TextsAlts(a, fields)|, |Texts(rest, fields)|, WaysAlts(a), Ways(rest));
  }

  lemma {:induction false} TextsAltsBelowWays(a: Alts, fields: seq<string>)
    ensures |TextsAlts(a, fields)| <= WaysAlts(a)
    ensures |TextsAlts(a, fields)| == WaysAlts(a) <==> ClearAlts(a, fields)
    decreases a
  {
    hide Texts, Ways, Clear;
    TextsBelowWays(a.d, fields);
    if a.More? {
      TextsAltsBelowWays(a.tail, fields);
      UnionSize(Texts(a.d, fields), TextsAlts(a.tail, fields));
    }
  }

  // ---------------------------------------------------------------- a condition on the options alone

  predicate Comparable(x: string, y: string) {
    x <= y || y <= x
  }

  ghost predicate PrefixFree(xs: set<string>) {
    forall x, y :: x in xs && y in xs && x <= y ==> x == y
  }

  /** In every group no text of one option starts with a text of another. */
  ghost predicate Apart(d: Doc, fields: seq<string>) {
    match d
    case End => true
    case Lit(_, rest) => Apart(rest, fields)
    case Group(a, rest) => ApartAlts(a, fields) && Apart(rest, fields)
  }

  ghost predicate ApartAlts(a: Alts, fields: seq<string>) {
    match a
    case One(d) => Apart(d, fields)
    case More(d, tail) =>
      && Apart(d, fields) && ApartAlts(tail, fields)
      && forall x, y :: x in Texts(d, fields) && y in TextsAlts(tail, fields) ==> !Comparable(x, y)
  }

  lemma PrefixFreeConcats(xs: set<string>, ys: set<string>)
    requires PrefixFree(xs)
    ensures Unambiguous(xs, ys)
    ensures PrefixFree(ys) ==> PrefixFree(Concats(xs, ys))
  {
    forall x, x', y, y' | x in xs && x' in xs && y in ys && y' in ys && x + y == x' + y' ensures x == x' {
      SplitComparable(x, y, x', y');
    }
    if PrefixFree(ys) {
      forall z, z' | z in Concats(xs, ys) && z' in Concats(xs, ys) && z <= z' ensures z == z' {
        var x, y := FromConcats(xs, ys, z);
        var x', y' := FromConcats(xs, ys, z');
        SplitComparable(x, y + z'[|z|..], x', y');
        assert z' == z + z'[|z|..];
        Assoc(x, y, z'[|z|..]);
        Cancel(x, y + z'[|z|..], y');
      }
    }
  }

  lemma SplitComparable(x: string, y: string, x': string, y': string)
    requires x + y == x' + y'
    ensures Comparable(x, x')
  {
    var z := x + y;
    assert z[..|x|] == x && z[..|x'|] == x';
  }

  lemma {:induction false} ApartIsClear(d: Doc, fields: seq<string>)
    requires Apart(d, fields)
    ensures Clear(d, fields) && PrefixFree(Texts(d, fields))
    decreases d
  {
    hide Concats, Meaning, Unambiguous, PrefixFree;
    match d
    case End => SinglePrefixFree("");
    case Lit(t, rest) =>
      ApartIsClear(rest, fields);
      SinglePrefixFree(Meaning(t, fields));
      PrefixFreeConcats({Meaning(t, fields)}, Texts(rest, fields));
    case Group(a, rest) =>
      ApartAltsAreClear(a, fields);
      ApartIsClear(rest, fields);
      PrefixFreeConcats(TextsAlts(a, fields), Texts(rest, fields));
  }

  lemma SinglePrefixFree(x: string)
    ensures PrefixFree({x})
  {
  }

  lemma {:induction false} ApartAltsAreClear(a: Alts, fields: seq<string>)
    requires ApartAlts(a, fields)
    ensures ClearAlts(a, fields) && PrefixFree(TextsAlts(a, fields))
    decreases a
  {
    hide Texts, Apart, Clear;
    match a
    case One(d) => ApartIsClear(d, fields);
    case More(d, tail) =>
      ApartIsClear(d, fields);
      ApartAltsAreClear(tail, fields);
      assert forall x, y :: x in Texts(d, fields) && y in TextsAlts(tail, fields) ==> !Comparable(x, y);
      PrefixFreeUnion(Texts(d, fields), TextsAlts(tail, fields));
  }

  lemma PrefixFreeUnion(xs: set<string>, ys: set<string>)
    requires PrefixFree(xs) && PrefixFree(ys)
    requires forall x, y :: x in xs && y in ys ==> !Comparable(x, y)
    ensures xs !! ys && PrefixFree(xs + ys)
  {
    forall x | x in xs ensures x !in ys {
      if x in ys {
        assert Comparable(x, x);
      }
    }
    forall x, y | x in xs + ys && y in xs + ys && x <= y ensures x == y {
      assert Comparable(x, y) && Comparable(y, x);
    }
  }

  // ---------------------------------------------------------------- the theorem

  /** The texts `spin` can return. */
  function Results(text: string): set<string> {
    if |text| > MAX_LENGTH then {text} else Texts(TreeOf(text), Fields(text))
  }

  lemma ResultsAreSpun(text: string, out: string)
    requires NUL !in text
    ensures out in Results(text) <==> exists random :: IsRandom(random) && Spun(text, random) == out
  {
    hide Spun, Denotes, Expand, TreeOf, Fields, Texts;
    if |text| > MAX_LENGTH {
      TooLongToSpin(text, out);
    } else {
      SpinIsRendering(text, out);
      if out in Results(text) {
        var v := TextsSound(TreeOf(text), out, Fields(text));
      }
      if IsRendering(text, out) {
        var v :| Denotes(TreeOf(text), v) && out == Expand(v, Fields(text));
        TextsComplete(TreeOf(text), v, Fields(text));
      }
    }
  }

  lemma TooLongToSpin(text: string, out: string)
    requires |text| > 20_000
    ensures out == text <==> exists random :: IsRandom(random) && Spun(text, random) == out
  {
    var random: nat -> real := i => 0.0;
    assert IsRandom(random) && Spun(text, random) == text;
  }

  /**
   * `countVariants` bounds the number of different texts, and is that number exactly when no choice
   * is nested in another and no two ways to choose give one text.
   */
  lemma CountIsExact(text: string)
    requires NUL !in text && |text| <= 20_000
    ensures forall out :: out in Results(text) <==> exists random :: IsRandom(random) && Spun(text, random) == out
    ensures |Results(text)| <= Choices(TreeOf(text))
    ensures |Results(text)| == Choices(TreeOf(text))
            <==> !Nested(TreeOf(text)) && Clear(TreeOf(text), Fields(text))
  {
    hide Spun, TreeOf, Fields, Texts, Choices, Ways, Nested, Clear;
    forall out
      ensures out in Results(text) <==> exists random :: IsRandom(random) && Spun(text, random) == out
    {
      ResultsAreSpun(text, out);
    }
    TextsBelowWays(TreeOf(text), Fields(text));
    WaysBelowChoices(TreeOf(text));
  }

  /** Where no option starts with another of its group, nesting alone decides. */
  lemma CountIsExactIfApart(text: string)
    requires NUL !in text && |text| <= 20_000 && Apart(TreeOf(text), Fields(text))
    ensures |Results(text)| == Choices(TreeOf(text)) <==> !Nested(TreeOf(text))
    ensures |Results(text)| == Ways(TreeOf(text))
  {
    hide TreeOf, Fields, Texts, Choices, Ways, Nested, Clear, Apart;
    ApartIsClear(TreeOf(text), Fields(text));
    TextsBelowWays(TreeOf(text), Fields(text));
    WaysBelowChoices(TreeOf(text));
  }

  /** A text too long to spin has one result, whatever is counted. */
  lemma CountOfLongText(text: string)
    requires |text| > 20_000
    ensures |Results(text)| == Choices(TreeOf(text)) <==> !HasChoice(TreeOf(text))
  {
    NoChoice(TreeOf(text));
  }

  /** The bound is not always reached: nested groups count choices that are thrown away. */
  lemma CountNotExact()
    ensures var text := "{a|{b|c}}"; Choices(TreeOf(text)) == 4 && Results(text) == {"a", "b", "c"}
  {
    var text := "{a|{b|c}}";
    var d := Pair(Word('a'), Pair(Word('b'), Word('c')));
    assert |text| <= MAX_LENGTH;
    assert TreeOf(text) == d by {
      hide *;
      NestedTokens();
      TreeIsUnique(text, d);
    }
    hide *;
    NestedCount();
    NestedTexts(Fields(text));
  }

  function Word(c: char): Doc {
    Lit(Ch(c), End)
  }

  lemma NestedCount()
    ensures Choices(Pair(Word('a'), Pair(Word('b'), Word('c')))) == 4
  {
    hide Pair, Choices, Word;
    WordMeaning('a', []);
    WordMeaning('b', []);
    WordMeaning('c', []);
    PairChoices(Word('b'), Word('c'));
    PairChoices(Word('a'), Pair(Word('b'), Word('c')));
  }

  lemma NestedTexts(fields: seq<string>)
    ensures Texts(Pair(Word('a'), Pair(Word('b'), Word('c'))), fields) == {"a", "b", "c"}
  {
    hide Pair, Texts, Word;
    WordMeaning('a', fields);
    WordMeaning('b', fields);
    WordMeaning('c', fields);
    PairTexts(Word('b'), Word('c'), fields);
    PairTexts(Word('a'), Pair(Word('b'), Word('c')), fields);
  }

  /** The template `{d|e}`. */
  function Pair(d: Doc, e: Doc): Doc {
    Group(More(d, One(e)), End)
  }

  lemma WordMeaning(c: char, fields: seq<string>)
    ensures Choices(Word(c)) == 1 && Texts(Word(c), fields) == {[c]}
  {
    ConcatsUnit({[c]});
    assert Texts(End, fields) == {""};
  }

  lemma ConcatsUnit(xs: set<string>)
    ensures Concats(xs, {""}) == xs
  {
    assert forall x: string :: x + "" == x;
    assert forall x :: x in xs ==> x + "" in Concats(xs, {""});
  }

  lemma PairTexts(d: Doc, e: Doc, fields: seq<string>)
    ensures Texts(Pair(d, e), fields) == Texts(d, fields) + Texts(e, fields)
  {
    hide Concats;
    assert TextsAlts(One(e), fields) == Texts(e, fields);
    assert TextsAlts(More(d, One(e)), fields) == Texts(d, fields) + Texts(e, fields);
    assert Texts(End, fields) == {""};
    ConcatsUnit(Texts(d, fields) + Texts(e, fields));
  }

  lemma PairUnfold(d: Doc, e: Doc)
    ensures var a := More(d, One(e));
            && Choices(Pair(d, e)) == Times(Count(a), Times(ChoicesAlts(a), Choices(End)))
            && ChoicesAlts(a) == Times(Choices(d), ChoicesAlts(One(e)))
            && ChoicesAlts(One(e)) == Choices(e) && Choices(End) == 1 && Count(One(e)) == 1 && Count(a) == 2
  {
    hide Times;
  }

  lemma PairChoices(d: Doc, e: Doc)
    ensures Choices(Pair(d, e)) == 2 * (Choices(d) * Choices(e))
  {
    hide Times;
    var a := More(d, One(e));
    var p := ChoicesAlts(a);
    PairUnfold(d, e);
    TimesLaws(p, 1, 1);
    TimesLaws(Choices(d), Choices(e), 1);
    TimesLaws(2, Times(p, 1), 1);
  }

  lemma NestedTokens()
    ensures var d := Pair(Word('a'), Pair(Word('b'), Word('c')));
            Wf(d, false) && Flat(d) == Tokens("{a|{b|c}}", 0)
  {
    hide Tokens, Flat, Pair;
    AllChars("{a|{b|c}}");
    var a, inner := Word('a'), Pair(Word('b'), Word('c'));
    WordFlat('a');
    WordFlat('b');
    WordFlat('c');
    PairFlat(Word('b'), Word('c'));
    PairFlat(a, inner);
    assert Wf(Pair(a, inner), false) by { PairInner(Word('b'), Word('c')); PairInner(a, inner); }
  }

  lemma PairInner(d: Doc, e: Doc)
    requires Inner(d) && Inner(e)
    ensures Inner(Pair(d, e)) && Wf(Pair(d, e), false)
  {
  }

  lemma WordFlat(c: char)
    ensures Flat(Word(c)) == [Ch(c)]
  {
  }

  lemma PairFlat(d: Doc, e: Doc)
    ensures Flat(Pair(d, e)) == [Ch('{')] + Flat(d) + [Ch('|')] + Flat(e) + [Ch('}')]
  {
    assert FlatAlts(More(d, One(e))) == Flat(d) + [Ch('|')] + Flat(e);
    assert Flat(End) == [];
  }

  /** Without two adjacent opening braces there is no placeholder. */
  lemma {:induction false} AllChars(s: string)
    requires forall i :: 0 <= i < |s| - 1 ==> !(s[i] == '{' && s[i + 1] == '{')
    ensures |Tokens(s, 0)| == |s| && forall i :: 0 <= i < |s| ==> Tokens(s, 0)[i] == Ch(s[i])
  {
    if s != "" {
      assert forall i :: 0 <= i < |s| - 1 ==> s[1..][i] == s[i + 1];
      AllChars(s[1..]);
    }
  }
}
