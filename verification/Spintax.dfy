/** `spin` and `countVariants`, proved against the template tree. */
module Spintax {
  import opened Template
  import opened Document
  import opened Parser
  import opened Rewriting

  const MAX_LENGTH := 20000

  // ---------------------------------------------------------------- one pass keeps the rendering

  lemma {:induction false} RenderFlat(d: Doc, e: Doc, random: nat -> real, i: nat)
    requires IsRandom(random) && !HasGroup(d)
    ensures Draws(Append(d, e)) == Draws(e)
    ensures Render(Append(d, e), random, i) == Flat(d) + Render(e, random, i)
    ensures Render(d, random, i) == Flat(d)
  {
    if d.Lit? {
      RenderFlat(d.rest, e, random, i);
    }
  }

  lemma {:induction false} RenderAltsFlat(a: Alts, random: nat -> real, i: nat)
    requires IsRandom(random) && !HasGroupAlts(a)
    ensures DrawsAlts(a) == 0
    ensures forall k :: 0 <= k < Count(a) ==> !HasGroup(Nth(a, k)) && RenderAlts(a, random, i)[k] == Flat(Nth(a, k))
  {
    match a
    case One(d) =>
      RenderFlat(d, End, random, i);
      DrawsFlat(d);
    case More(d, tail) =>
      RenderFlat(d, End, random, i);
      DrawsFlat(d);
      RenderAltsFlat(tail, random, i);
  }

  lemma {:induction false} DrawsFlat(d: Doc)
    requires !HasGroup(d)
    ensures Draws(d) == 0
  {
    if d.Lit? {
      DrawsFlat(d.rest);
    }
  }

  /** The choice `spin` makes for a group of `n` alternatives at call number `i`. */
  ghost function Chance(random: nat -> real, i: nat, n: nat): (c: Choice)
    requires IsRandom(random) && n > 0
    ensures c.Take? && c.k < n
  {
    if n > 1 then Take(Pick(random(i), n)) else Take(0)
  }

  /** How many random numbers a group of `n` alternatives takes. */
  function Cost(n: nat): nat {
    if n > 1 then 1 else 0
  }

  /** Resolving the first group to close uses the next random number and changes no rendering. */
  lemma {:induction false} StepRender(d: Doc, random: nat -> real, i: nat)
    requires IsRandom(random) && HasGroup(d)
    ensures var n := FirstCount(d); var d' := Step(d, Chance(random, i, n));
            && Draws(d) == Draws(d') + Cost(n)
            && Render(d, random, i) == Render(d', random, i + Cost(n))
    decreases d
  {
    match d
    case Lit(_, rest) => StepRender(rest, random, i);
    case Group(a, rest) =>
      var n := FirstCount(d);
      var c := Chance(random, i, n);
      if HasGroupAlts(a) {
        StepRenderAlts(a, random, i);
        RenderInside(a, StepAlts(a, c), rest, random, i, Cost(n));
      } else {
        RenderResolved(a, rest, random, i);
      }
  }

  /** Alternatives that render alike, a few draws later, make groups that do. */
  lemma RenderInside(a: Alts, a': Alts, rest: Doc, random: nat -> real, i: nat, cost: nat)
    requires IsRandom(random) && DrawsAlts(a) == DrawsAlts(a') + cost
    requires RenderAlts(a, random, i) == RenderAlts(a', random, i + cost)
    ensures Draws(Group(a, rest)) == Draws(Group(a', rest)) + cost
    ensures Render(Group(a, rest), random, i) == Render(Group(a', rest), random, i + cost)
  {
  }

  /** A group without groups inside renders as the alternative drawn for it. */
  lemma RenderResolved(a: Alts, rest: Doc, random: nat -> real, i: nat)
    requires IsRandom(random) && !HasGroupAlts(a)
    ensures var n := Count(a); var d' := Step(Group(a, rest), Chance(random, i, n));
            && Draws(Group(a, rest)) == Draws(d') + Cost(n)
            && Render(Group(a, rest), random, i) == Render(d', random, i + Cost(n))
  {
    hide *;
    var c := Chance(random, i, Count(a));
    ResolvedShape(a, rest, c);
    RenderAltsFlat(a, random, i);
    ChanceGroup(a, rest, random, i);
    RenderFlat(Nth(a, c.k), rest, random, i + Cost(Count(a)));
  }

  /** A group renders as the alternative drawn for it, then what follows. */
  lemma ChanceGroup(a: Alts, rest: Doc, random: nat -> real, i: nat)
    requires IsRandom(random) && DrawsAlts(a) == 0
    ensures var n := Count(a);
            Render(Group(a, rest), random, i)
            == RenderAlts(a, random, i)[Chance(random, i, n).k] + Render(rest, random, i + Cost(n))
  {
    hide Render, RenderAlts, Pick;
    RenderGroup(a, rest, random, i);
  }

  lemma ResolvedShape(a: Alts, rest: Doc, c: Choice)
    requires !HasGroupAlts(a) && c.Take? && c.k < Count(a)
    ensures HasGroup(Group(a, rest)) && FirstCount(Group(a, rest)) == Count(a)
    ensures !HasGroup(Nth(a, c.k)) && Step(Group(a, rest), c) == Append(Nth(a, c.k), rest)
    ensures Draws(Group(a, rest)) == DrawsAlts(a) + Cost(Count(a)) + Draws(rest)
  {
    NthFlat(a, c.k);
  }

  lemma {:induction false} StepRenderAlts(a: Alts, random: nat -> real, i: nat)
    requires IsRandom(random) && HasGroupAlts(a)
    ensures var n := FirstCountAlts(a); var a' := StepAlts(a, Chance(random, i, n));
            && DrawsAlts(a) == DrawsAlts(a') + Cost(n)
            && RenderAlts(a, random, i) == RenderAlts(a', random, i + Cost(n))
    decreases a
  {
    match a
    case One(d) => StepRender(d, random, i);
    case More(d, tail) =>
      if HasGroup(d) {
        StepRender(d, random, i);
      } else {
        DrawsFlat(d);
        RenderFlat(d, End, random, i);
        RenderFlat(d, End, random, i + Cost(FirstCountAlts(tail)));
        StepRenderAlts(tail, random, i);
      }
  }

  // ---------------------------------------------------------------- spin

  /** The template tree of a text. */
  function TreeOf(text: string): Doc {
    Parse(Tokens(text, 0))
  }

  /** What `spin` returns: the rendering of the tree, sentinels turned back into placeholders. */
  ghost function Spun(text: string, random: nat -> real): string
    requires IsRandom(random)
  {
    if '{' !in text || |text| > MAX_LENGTH then text
    else Restore(Str(Render(TreeOf(text), random, 0)), Fields(text))
  }

  lemma {:induction false} SrcIsStr(d: Doc)
    ensures Src(d) == Str(Flat(d))
  {
    hide Enc, Str;
    match d
    case End => StrNil();
    case Lit(t, rest) =>
      SrcIsStr(rest);
      StrCons(t, Flat(rest));
    case Group(a, rest) =>
      SrcAltsIsStr(a);
      SrcIsStr(rest);
      StrConcat([Ch('{')] + FlatAlts(a) + [Ch('}')], Flat(rest));
      StrConcat([Ch('{')] + FlatAlts(a), [Ch('}')]);
      StrConcat([Ch('{')], FlatAlts(a));
      StrOne('{');
      StrOne('}');
  }

  lemma {:induction false} SrcAltsIsStr(a: Alts)
    ensures SrcAlts(a) == Str(FlatAlts(a))
  {
    hide Enc, Str;
    match a
    case One(d) => SrcIsStr(d);
    case More(d, tail) =>
      SrcIsStr(d);
      SrcAltsIsStr(tail);
      StrConcat(Flat(d) + [Ch('|')], FlatAlts(tail));
      StrConcat(Flat(d), [Ch('|')]);
      StrOne('|');
  }

  lemma StrOne(c: char)
    ensures Str([Ch(c)]) == [c]
  {
    StrCons(Ch(c), []);
    assert [Ch(c)] + [] == [Ch(c)];
    StrNil();
  }

  /** The tree of a text is well-formed and its source is the stashed text. */
  lemma TreeOfSrc(text: string)
    ensures Wf(TreeOf(text), false)
    ensures Src(TreeOf(text)) == Str(Tokens(text, 0))
  {
    ParseWf(Tokens(text, 0), false);
    FlatParse(Tokens(text, 0));
    SrcIsStr(TreeOf(text));
  }

  method Spin(text: string, random: nat -> real) returns (result: string)
    requires IsRandom(random)
    ensures result == Spun(text, random)
  {
    if text == "" || '{' !in text {
      return text;
    }
    if |text| > MAX_LENGTH {
      return text;
    }
    var out, stash := StashPlaceholders(text);
    TreeOfSrc(text);
    out := ResolveGroups(out, random, TreeOf(text));
    result := Restore(out, stash);
  }

  /** The rewriting loop. The fuel, one unit per character, is never what ends it too early. */
  method ResolveGroups(text: string, random: nat -> real, ghost tree: Doc) returns (out: string)
    requires IsRandom(random) && Wf(tree, false) && text == Src(tree)
    ensures out == Str(Render(tree, random, 0))
    ensures FindGroup(out).NoMatch?
  {
    hide FindGroup, Render, Draws, SplitBar, Src, Wf, Str, Pick, IsRandom;
    out := text;
    var draws := 0;
    var guard := 0;
    var limit := |out|;
    ghost var d := tree;
    while guard < limit
      invariant out == Src(d) && Wf(d, false)
      invariant Render(d, random, draws) == Render(tree, random, 0)
      invariant |out| + 2 * guard <= limit
    {
      guard := guard + 1;
      var match_ := FindGroup(out);
      if match_.NoMatch? {
        break;
      }
      var i, j := match_.start, match_.end;
      ghost var next := ResolveFirst(d, out, match_, random, draws);
      var inside := out[i + 1..j];
      var options := SplitBar(inside);
      var choice := inside;
      if |options| > 1 {
        CallInRange(random, draws);
        choice := options[Pick(random(draws), |options|)];
        draws := draws + 1;
      }
      ReplacementShorter(inside, choice);
      out := out[..i] + choice + out[j + 1..];
      d := next;
    }
    assert FindGroup(out).NoMatch?;
    Finished(d, out, random, draws);
  }

  lemma CallInRange(random: nat -> real, i: nat)
    requires IsRandom(random)
    ensures 0.0 <= random(i) < 1.0
  {
  }

  /** A pass of the loop, seen on the tree. */
  lemma ResolveFirst(d: Doc, out: string, f: Match, random: nat -> real, i: nat) returns (next: Doc)
    requires IsRandom(random) && Wf(d, false) && out == Src(d) && f == FindGroup(out) && f.Found?
    ensures var m := out[f.start + 1..f.end]; var options := SplitBar(m);
            && Src(next) == out[..f.start]
                 + (if |options| > 1 then options[Pick(random(i), |options|)] else m) + out[f.end + 1..]
            && Wf(next, false)
            && Render(next, random, i + Cost(|options|)) == Render(d, random, i)
            && Draws(d) == Draws(next) + Cost(|options|)
  {
    hide Render, SplitBar, Src, Flat, Wf, Draws, Step, Pick, FindGroup;
    if !HasGroup(d) {
      NothingLeft(d, false);
    }
    var c := Chance(random, i, FirstCount(d));
    var p, m, q := Locate(d, false, c);
    FindAfterQuiet(out, p, m, q);
    StepWf(d, false, c);
    StepRender(d, random, i);
    next := Step(d, c);
  }

  lemma {:induction false} SplitLength(s: string, k: nat)
    requires k < |SplitBar(s)|
    ensures |SplitBar(s)[k]| <= |s|
  {
    if s != "" {
      var tail := SplitBar(s[1..]);
      SplitLength(s[1..], if s[0] == '|' && k > 0 then k - 1 else if s[0] == '|' then 0 else k);
    }
  }

  lemma ReplacementShorter(m: string, choice: string)
    requires choice in SplitBar(m) || choice == m
    ensures |choice| <= |m|
  {
    if choice != m {
      var k :| 0 <= k < |SplitBar(m)| && SplitBar(m)[k] == choice;
      SplitLength(m, k);
    }
  }

  /** When the loop ends, by the fuel or by itself, no group is left to resolve. */
  lemma Finished(d: Doc, out: string, random: nat -> real, i: nat)
    requires IsRandom(random) && Wf(d, false) && out == Src(d)
    requires FindGroup(out).NoMatch?
    ensures out == Str(Render(d, random, i))
  {
    if HasGroup(d) {
      var p, m, q := Locate(d, false, Drop);
      FindAfterQuiet(out, p, m, q);
    }
    RenderFlat(d, End, random, i);
    SrcIsStr(d);
  }
}
