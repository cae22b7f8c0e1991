/** `countVariants`: the product it computes, and the loop that computes it. */
module Variants {
  import opened Seqs
  import opened Template
  import opened Document
  import opened Parser
  import opened Rewriting
  import opened Spintax
  import opened SpinMeaning

  /** `text.replace(PLACEHOLDER, '')`. */
  function Strip(s: string): string
    decreases |s|
  {
    if s == "" then ""
    else
      var len := PlaceholderLen(s);
      if len > 0 then Strip(s[len..]) else [s[0]] + Strip(s[1..])
  }

  /** The tree with its placeholders dropped. */
  function NoHoles(d: Doc): Doc {
    match d
    case End => End
    case Lit(t, rest) => if t.Hole? then NoHoles(rest) else Lit(t, NoHoles(rest))
    case Group(a, rest) => Group(NoHolesAlts(a), NoHoles(rest))
  }

  function NoHolesAlts(a: Alts): (a': Alts)
    ensures Count(a') == Count(a)
  {
    match a
    case One(d) => One(NoHoles(d))
    case More(d, tail) => More(NoHoles(d), NoHolesAlts(tail))
  }

  /** Product, over every group of the tree, of its number of alternatives. */
  function Choices(d: Doc): (n: nat)
    ensures n > 0
  {
    match d
    case End => 1
    case Lit(_, rest) => Choices(rest)
    case Group(a, rest) => Times(Count(a), Times(ChoicesAlts(a), Choices(rest)))
  }

  function ChoicesAlts(a: Alts): (n: nat)
    ensures n > 0
  {
    match a
    case One(d) => Choices(d)
    case More(d, tail) => Times(Choices(d), ChoicesAlts(tail))
  }

  function Times(x: nat, y: nat): (z: nat)
    ensures x > 0 && y > 0 ==> z >= x && z >= y
  {
    if x > 0 && y > 0 then
      assert x * y >= x * 1 && x * y >= 1 * y;
      x * y
    else 0
  }

  lemma TimesLaws(x: nat, y: nat, z: nat)
    ensures Times(x, y) == x * y
    ensures Times(x, Times(y, z)) == Times(y, Times(x, z))
    ensures Times(x, Times(y, z)) == Times(Times(x, y), z)
    ensures Times(x + y, z) == Times(x, z) + Times(y, z)
  {
    assert x * (y * z) == y * (x * z) == (x * y) * z;
    assert (x + y) * z == x * z + y * z;
  }

  // ---------------------------------------------------------------- the loop

  lemma {:induction false} StripTokens(s: string, n: nat)
    ensures Strip(s) == Str(Chars(Tokens(s, n)))
    decreases |s|
  {
    hide PlaceholderLen;
    if s != "" {
      var len := PlaceholderLen(s);
      if len > 0 {
        StripTokens(s[len..], n + 1);
        CharsCons(Hole(n), Tokens(s[len..], n + 1));
      } else {
        StripTokens(s[1..], n);
        CharsCons(Ch(s[0]), Tokens(s[1..], n));
        StrCons(Ch(s[0]), Chars(Tokens(s[1..], n)));
      }
    }
  }

  function Chars(ts: seq<Tok>): seq<Tok> {
    if ts == [] then [] else (if ts[0].Hole? then [] else [ts[0]]) + Chars(ts[1..])
  }

  lemma CharsCons(t: Tok, ts: seq<Tok>)
    ensures Chars([t] + ts) == if t.Hole? then Chars(ts) else [t] + Chars(ts)
  {
    assert ([t] + ts)[1..] == ts;
  }

  lemma {:induction false} CharsConcat(a: seq<Tok>, b: seq<Tok>)
    ensures Chars(a + b) == Chars(a) + Chars(b)
  {
    hide Chars;
    if a == [] {
      assert a + b == b;
      CharsNil();
    } else {
      var t, rest := a[0], a[1..];
      CharsConcat(rest, b);
      CharsCons(t, rest);
      CharsCons(t, rest + b);
      assert a == [t] + rest;
      Assoc([t], rest, b);
      Assoc([t], Chars(rest), Chars(b));
    }
  }

  lemma {:induction false} NoHolesFlat(d: Doc)
    ensures Flat(NoHoles(d)) == Chars(Flat(d))
  {
    hide Chars;
    match d
    case End => CharsNil();
    case Lit(t, rest) =>
      NoHolesFlat(rest);
      CharsCons(t, Flat(rest));
    case Group(a, rest) =>
      NoHolesFlatAlts(a);
      NoHolesFlat(rest);
      CharsConcat([Ch('{')] + FlatAlts(a) + [Ch('}')], Flat(rest));
      CharsConcat([Ch('{')] + FlatAlts(a), [Ch('}')]);
      CharsConcat([Ch('{')], FlatAlts(a));
      CharsOne('{');
      CharsOne('}');
  }

  lemma {:induction false} NoHolesFlatAlts(a: Alts)
    ensures FlatAlts(NoHolesAlts(a)) == Chars(FlatAlts(a))
  {
    hide Chars;
    match a
    case One(d) => NoHolesFlat(d);
    case More(d, tail) =>
      NoHolesFlat(d);
      NoHolesFlatAlts(tail);
      CharsConcat(Flat(d) + [Ch('|')], FlatAlts(tail));
      CharsConcat(Flat(d), [Ch('|')]);
      CharsOne('|');
  }

  lemma CharsNil()
    ensures Chars([]) == []
  {
  }

  lemma CharsOne(c: char)
    ensures Chars([Ch(c)]) == [Ch(c)]
  {
  }

  lemma {:induction false} NoHolesWf(d: Doc, open: bool)
    ensures Wf(d, open) ==> Wf(NoHoles(d), open)
    ensures Inner(d) ==> Inner(NoHoles(d))
    ensures Choices(NoHoles(d)) == Choices(d)
    decreases d
  {
    match d
    case End =>
    case Lit(t, rest) => NoHolesWf(rest, open || t == Ch('{'));
    case Group(a, rest) =>
      NoHolesWf(rest, open);
      NoHolesInner(a);
  }

  lemma {:induction false} NoHolesInner(a: Alts)
    ensures InnerAlts(a) ==> InnerAlts(NoHolesAlts(a))
    ensures ChoicesAlts(NoHolesAlts(a)) == ChoicesAlts(a)
    decreases a
  {
    match a
    case One(d) => NoHolesWf(d, true);
    case More(d, tail) =>
      NoHolesWf(d, true);
      NoHolesInner(tail);
  }

  /** Dropping the first group to close divides the product by its number of alternatives. */
  lemma {:induction false} DropChoices(d: Doc)
    requires HasGroup(d)
    ensures Choices(d) == Times(FirstCount(d), Choices(Step(d, Drop)))
    decreases d
  {
    hide Times;
    match d
    case Lit(_, rest) => DropChoices(rest);
    case Group(a, rest) =>
      if HasGroupAlts(a) {
        DropChoicesAlts(a);
        var n, x := FirstCountAlts(a), ChoicesAlts(StepAlts(a, Drop));
        TimesLaws(n, x, Choices(rest));
        TimesLaws(Count(a), n, Times(x, Choices(rest)));
      } else {
        FlatChoicesAlts(a);
        OneTimes(Choices(rest));
      }
  }

  lemma {:induction false} DropChoicesAlts(a: Alts)
    requires HasGroupAlts(a)
    ensures ChoicesAlts(a) == Times(FirstCountAlts(a), ChoicesAlts(StepAlts(a, Drop)))
    decreases a
  {
    hide Times;
    match a
    case One(d) => DropChoices(d);
    case More(d, tail) =>
      if HasGroup(d) {
        DropChoices(d);
        TimesLaws(FirstCount(d), Choices(Step(d, Drop)), ChoicesAlts(tail));
      } else {
        DropChoicesAlts(tail);
        TimesLaws(Choices(d), FirstCountAlts(tail), ChoicesAlts(StepAlts(tail, Drop)));
      }
  }

  lemma OneTimes(x: nat)
    ensures Times(1, x) == x
  {
  }

  lemma {:induction false} FlatChoices(d: Doc)
    requires !HasGroup(d)
    ensures Choices(d) == 1
  {
    if d.Lit? {
      FlatChoices(d.rest);
    }
  }

  lemma {:induction false} FlatChoicesAlts(a: Alts)
    requires !HasGroupAlts(a)
    ensures ChoicesAlts(a) == 1
  {
    match a
    case One(d) => FlatChoices(d);
    case More(d, tail) =>
      FlatChoices(d);
      FlatChoicesAlts(tail);
  }

  /** A pass of the counting loop, seen on the tree. */
  lemma DropFirst(d: Doc, out: string, f: Match) returns (next: Doc)
    requires Wf(d, false) && out == Src(d) && f == FindGroup(out) && f.Found?
    ensures Src(next) == out[..f.start] + out[f.end + 1..]
    ensures Wf(next, false)
    ensures Choices(d) == Times(|SplitBar(out[f.start + 1..f.end])|, Choices(next))
  {
    hide SplitBar, Src, Wf, Step, FindGroup, Times, Choices;
    if !HasGroup(d) {
      NothingLeft(d, false);
    }
    var p, m, q := Locate(d, false, Drop);
    FindAfterQuiet(out, p, m, q);
    StepWf(d, false, Drop);
    DropChoices(d);
    next := Step(d, Drop);
    assert p + "" + q == p + q;
  }

  lemma NoneLeft(d: Doc, out: string)
    requires Wf(d, false) && out == Src(d) && FindGroup(out).NoMatch?
    ensures Choices(d) == 1
  {
    if HasGroup(d) {
      var p, m, q := Locate(d, false, Drop);
      FindAfterQuiet(out, p, m, q);
    }
    FlatChoices(d);
  }

  lemma StrippedTree(text: string) returns (d: Doc)
    ensures Wf(d, false) && Src(d) == Strip(text) && Choices(d) == Choices(TreeOf(text))
  {
    d := NoHoles(TreeOf(text));
    ParseWf(Tokens(text, 0), false);
    FlatParse(Tokens(text, 0));
    NoHolesWf(TreeOf(text), false);
    NoHolesFlat(TreeOf(text));
    StripTokens(text, 0);
    SrcIsStr(d);
  }

  method CountVariants(text: string) returns (total: nat)
    ensures total == Choices(TreeOf(text))
  {
    if text == "" || '{' !in text {
      FlatParse(Tokens(text, 0));
      TokensKeepChars(text, 0, '{');
      if HasGroup(TreeOf(text)) {
        GroupNeedsBrace(TreeOf(text));
      }
      FlatChoices(TreeOf(text));
      return 1;
    }
    hide FindGroup, SplitBar, Src, Wf, Strip, Tokens, Parse, Choices, Times;
    total := 1;
    var remaining := Strip(text);
    ghost var d := StrippedTree(text);
    var guard := 0;
    var limit := |remaining|;
    OneTimes(Choices(d));
    while guard < limit
      invariant remaining == Src(d) && Wf(d, false)
      invariant Times(total, Choices(d)) == Choices(TreeOf(text))
      invariant |remaining| + 2 * guard <= limit
    {
      guard := guard + 1;
      var match_ := FindGroup(remaining);
      if match_.NoMatch? {
        break;
      }
      var options := SplitBar(remaining[match_.start + 1..match_.end]);
      ghost var next := DropFirst(d, remaining, match_);
      TimesLaws(total, |options|, Choices(next));
      OneTimes(total);
      if |options| > 1 {
        total := total * |options|;
      }
      remaining := remaining[..match_.start] + remaining[match_.end + 1..];
      d := next;
    }
    assert FindGroup(remaining).NoMatch?;
    NoneLeft(d, remaining);
    TimesLaws(total, 1, 1);
  }
}
