/** The template tree: what a spintax template means, independently of how it is rewritten. */
module Document {
  import opened Template

  /** A run of pieces and `{a|b|c}` groups. */
  datatype Doc = End | Lit(t: Tok, rest: Doc) | Group(alts: Alts, rest: Doc)
  /** The alternatives of one group, at least one. */
  datatype Alts = One(d: Doc) | More(d: Doc, tail: Alts)

  // ---------------------------------------------------------------- concrete syntax

  function Flat(d: Doc): seq<Tok> {
    match d
    case End => []
    case Lit(t, rest) => [t] + Flat(rest)
    case Group(a, rest) => [Ch('{')] + FlatAlts(a) + [Ch('}')] + Flat(rest)
  }

  function FlatAlts(a: Alts): seq<Tok> {
    match a
    case One(d) => Flat(d)
    case More(d, tail) => Flat(d) + [Ch('|')] + FlatAlts(tail)
  }

  /** The source text of a tree, as the rewriting loop sees it. */
  function Src(d: Doc): string {
    match d
    case End => ""
    case Lit(t, rest) => Enc(t) + Src(rest)
    case Group(a, rest) => "{" + SrcAlts(a) + "}" + Src(rest)
  }

  function SrcAlts(a: Alts): string {
    match a
    case One(d) => Src(d)
    case More(d, tail) => Src(d) + "|" + SrcAlts(tail)
  }

  /** Inside a group no brace and no pipe is literal. */
  predicate Inner(d: Doc) {
    match d
    case End => true
    case Lit(t, rest) => t != Ch('{') && t != Ch('}') && t != Ch('|') && Inner(rest)
    case Group(a, rest) => InnerAlts(a) && Inner(rest)
  }

  predicate InnerAlts(a: Alts) {
    match a
    case One(d) => Inner(d)
    case More(d, tail) => Inner(d) && InnerAlts(tail)
  }

  /**
   * A well-formed template: outside groups anything may be literal, except that an unmatched
   * `}` never follows an unmatched `{` (`open` says one has been seen).
   */
  predicate Wf(d: Doc, open: bool) {
    match d
    case End => true
    case Lit(t, rest) => (open ==> t != Ch('}')) && Wf(rest, open || t == Ch('{'))
    case Group(a, rest) => InnerAlts(a) && Wf(rest, open)
  }

  lemma {:induction false} InnerWf(d: Doc)
    requires Inner(d)
    ensures Wf(d, true)
  {
    match d
    case End =>
    case Lit(_, rest) => InnerWf(rest);
    case Group(_, rest) => InnerWf(rest);
  }

  // ---------------------------------------------------------------- meaning

  function Count(a: Alts): (n: nat)
    ensures n > 0
  {
    match a
    case One(_) => 1
    case More(_, tail) => 1 + Count(tail)
  }

  function Nth(a: Alts, k: nat): Doc
    requires k < Count(a)
  {
    match a
    case One(d) => d
    case More(d, tail) => if k == 0 then d else Nth(tail, k - 1)
  }

  /** `v` is a rendering of `d`: one alternative chosen in every group. */
  ghost predicate Denotes(d: Doc, v: seq<Tok>)
    decreases d
  {
    match d
    case End => v == []
    case Lit(t, rest) => v != [] && v[0] == t && Denotes(rest, v[1..])
    case Group(a, rest) =>
      exists n | 0 <= n <= |v| :: DenotesAlt(a, v[..n]) && Denotes(rest, v[n..])
  }

  ghost predicate DenotesAlt(a: Alts, v: seq<Tok>)
    decreases a
  {
    match a
    case One(d) => Denotes(d, v)
    case More(d, tail) => Denotes(d, v) || DenotesAlt(tail, v)
  }

  /** The random source: successive calls return reals in [0, 1). */
  ghost predicate IsRandom(random: nat -> real) {
    forall i :: 0.0 <= random(i) < 1.0
  }

  /** `Math.floor(r * n)`. */
  function Pick(r: real, n: nat): (k: nat)
    requires n > 0 && 0.0 <= r < 1.0
    ensures k < n
  {
    var x := r * n as real;
    assert 0.0 <= x;
    assert x < n as real;
    x.Floor
  }

  lemma PickHits(k: nat, n: nat)
    requires k < n
    ensures 0.0 <= k as real / n as real < 1.0
    ensures Pick(k as real / n as real, n) == k
  {
    var r := k as real / n as real;
    assert r * n as real == k as real;
  }

  /** How many random numbers rendering consumes: one per group with a real choice. */
  function Draws(d: Doc): nat {
    match d
    case End => 0
    case Lit(_, rest) => Draws(rest)
    case Group(a, rest) => DrawsAlts(a) + (if Count(a) > 1 then 1 else 0) + Draws(rest)
  }

  function DrawsAlts(a: Alts): nat {
    match a
    case One(d) => Draws(d)
    case More(d, tail) => Draws(d) + DrawsAlts(tail)
  }

  /**
   * The rendering selected by `random` from call number `i` on. A group draws after everything
   * inside it, including the alternatives that are then thrown away.
   */
  ghost function Render(d: Doc, random: nat -> real, i: nat): seq<Tok>
    requires IsRandom(random)
  {
    match d
    case End => []
    case Lit(t, rest) => [t] + Render(rest, random, i)
    case Group(a, rest) =>
      var j := i + DrawsAlts(a);
      var options := RenderAlts(a, random, i);
      if |options| > 1 then options[Pick(random(j), |options|)] + Render(rest, random, j + 1)
      else options[0] + Render(rest, random, j)
  }

  ghost function RenderAlts(a: Alts, random: nat -> real, i: nat): (options: seq<seq<Tok>>)
    requires IsRandom(random)
    ensures |options| == Count(a)
  {
    match a
    case One(d) => [Render(d, random, i)]
    case More(d, tail) => [Render(d, random, i)] + RenderAlts(tail, random, i + Draws(d))
  }

  // ---------------------------------------------------------------- soundness of rendering

  /** Whatever the random source, the result is a rendering of the tree. */
  lemma {:induction false} RenderDenotes(d: Doc, random: nat -> real, i: nat)
    requires IsRandom(random)
    ensures Denotes(d, Render(d, random, i))
  {
    match d
    case End =>
    case Lit(t, rest) =>
      RenderDenotes(rest, random, i);
    case Group(a, rest) =>
      var j := i + DrawsAlts(a);
      var options := RenderAlts(a, random, i);
      var k := if |options| > 1 then Pick(random(j), |options|) else 0;
      var j' := if |options| > 1 then j + 1 else j;
      RenderAltDenotes(a, random, i, k);
      RenderDenotes(rest, random, j');
      var v := Render(d, random, i);
      assert v[..|options[k]|] == options[k] && v[|options[k]|..] == Render(rest, random, j');
  }

  lemma {:induction false} RenderAltDenotes(a: Alts, random: nat -> real, i: nat, k: nat)
    requires IsRandom(random) && k < Count(a)
    ensures DenotesAlt(a, RenderAlts(a, random, i)[k])
  {
    match a
    case One(d) => RenderDenotes(d, random, i);
    case More(d, tail) =>
      if k == 0 {
        RenderDenotes(d, random, i);
      } else {
        RenderAltDenotes(tail, random, i + Draws(d), k - 1);
      }
  }

  // ---------------------------------------------------------------- completeness of rendering

  /** The two sources agree on the calls from `i` up to `j`. */
  ghost predicate Agree(r1: nat -> real, r2: nat -> real, i: nat, j: nat) {
    forall k: nat :: i <= k < j ==> r1(k) == r2(k)
  }

  /** Rendering looks at no random number but its own. */
  lemma {:induction false} RenderLocal(d: Doc, r1: nat -> real, r2: nat -> real, i: nat)
    requires IsRandom(r1) && IsRandom(r2) && Agree(r1, r2, i, i + Draws(d))
    ensures Render(d, r1, i) == Render(d, r2, i)
  {
    match d
    case End =>
    case Lit(_, rest) => RenderLocal(rest, r1, r2, i);
    case Group(a, rest) =>
      RenderAltsLocal(a, r1, r2, i);
      var j := i + DrawsAlts(a);
      RenderLocal(rest, r1, r2, if Count(a) > 1 then j + 1 else j);
  }

  lemma {:induction false} RenderAltsLocal(a: Alts, r1: nat -> real, r2: nat -> real, i: nat)
    requires IsRandom(r1) && IsRandom(r2) && Agree(r1, r2, i, i + DrawsAlts(a))
    ensures RenderAlts(a, r1, i) == RenderAlts(a, r2, i)
  {
    match a
    case One(d) => RenderLocal(d, r1, r2, i);
    case More(d, tail) =>
      RenderLocal(d, r1, r2, i);
      RenderAltsLocal(tail, r1, r2, i + Draws(d));
  }

  /** `r1` up to call `i`, then `r2`. */
  function Splice(r1: nat -> real, r2: nat -> real, i: nat): nat -> real {
    (k: nat) => if k < i then r1(k) else r2(k)
  }

  /** One source that serves the alternatives, the choice among them, and what follows. */
  lemma JoinSources(a: Alts, rest: Doc, r1: nat -> real, k: nat, r2: nat -> real, i: nat)
    returns (random: nat -> real)
    requires IsRandom(r1) && IsRandom(r2) && k < Count(a)
    ensures IsRandom(random)
    ensures var j := i + DrawsAlts(a);
            Render(Group(a, rest), random, i)
            == RenderAlts(a, r1, i)[k] + Render(rest, r2, if Count(a) > 1 then j + 1 else j)
  {
    hide Render, RenderAlts, Pick;
    var j := i + DrawsAlts(a);
    if Count(a) > 1 {
      PickHits(k, Count(a));
      var own: nat -> real := m => k as real / Count(a) as real;
      random := Splice(Splice(r1, own, j), r2, j + 1);
      RenderLocal(rest, r2, random, j + 1);
    } else {
      random := Splice(r1, r2, j);
      RenderLocal(rest, r2, random, j);
    }
    RenderAltsLocal(a, r1, random, i);
    RenderGroup(a, rest, random, i);
  }

  lemma RenderGroup(a: Alts, rest: Doc, random: nat -> real, i: nat)
    requires IsRandom(random)
    ensures var j := i + DrawsAlts(a);
            Render(Group(a, rest), random, i) ==
            if Count(a) > 1
            then RenderAlts(a, random, i)[Pick(random(j), Count(a))] + Render(rest, random, j + 1)
            else RenderAlts(a, random, i)[0] + Render(rest, random, j)
  {
  }

  /** Every rendering of the tree is reached by some random source. */
  lemma {:induction false} RenderReaches(d: Doc, v: seq<Tok>, i: nat) returns (random: nat -> real)
    requires Denotes(d, v)
    ensures IsRandom(random)
    ensures Render(d, random, i) == v
    decreases d
  {
    match d
    case End =>
      random := k => 0.0;
    case Lit(t, rest) =>
      random := RenderReaches(rest, v[1..], i);
      assert v == [t] + v[1..];
    case Group(a, rest) =>
      var n :| 0 <= n <= |v| && DenotesAlt(a, v[..n]) && Denotes(rest, v[n..]);
      var r1, k := RenderReachesAlt(a, v[..n], i);
      var j := i + DrawsAlts(a);
      var r2 := RenderReaches(rest, v[n..], if Count(a) > 1 then j + 1 else j);
      random := JoinSources(a, rest, r1, k, r2, i);
      assert v == v[..n] + v[n..];
  }

  lemma {:induction false} RenderReachesAlt(a: Alts, v: seq<Tok>, i: nat) returns (random: nat -> real, k: nat)
    requires DenotesAlt(a, v)
    ensures IsRandom(random) && k < Count(a)
    ensures RenderAlts(a, random, i)[k] == v
    decreases a
  {
    match a
    case One(d) =>
      random := RenderReaches(d, v, i);
      k := 0;
    case More(d, tail) =>
      if Denotes(d, v) {
        random := RenderReaches(d, v, i);
        k := 0;
      } else {
        random, k := RenderReachesAlt(tail, v, i + Draws(d));
        k := k + 1;
      }
  }
}
