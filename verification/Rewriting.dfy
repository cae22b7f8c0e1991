/** One pass of the rewriting loop, on text and on trees. */
module Rewriting {
  import opened Seqs
  import opened Template
  import opened Document

  // ---------------------------------------------------------------- on text

  predicate IsBrace(c: char) {
    c == '{' || c == '}'
  }

  /** `s[i..j + 1]` matches `\{([^{}]*)\}`. */
  predicate IsGroup(s: string, i: nat, j: nat) {
    i < j < |s| && s[i] == '{' && s[j] == '}' && forall k :: i < k < j ==> !IsBrace(s[k])
  }

  datatype Match = NoMatch | Found(start: nat, end: nat)

  /** `INNERMOST_GROUP.exec(s)`: the leftmost match. */
  function FindGroup(s: string): (m: Match)
    ensures m.NoMatch? ==> forall i: nat, j: nat :: !IsGroup(s, i, j)
    ensures m.Found? ==> IsGroup(s, m.start, m.end) && forall i: nat, j: nat :: IsGroup(s, i, j) ==> m.start <= i
  {
    FindFrom(s, 0, -1)
  }

  /** Scan from `i`; `open` is the last brace before `i` if that is an opening one, else -1. */
  function FindFrom(s: string, i: nat, open: int): (m: Match)
    requires -1 <= open < i <= |s| || (open == -1 && i == 0)
    requires open >= 0 ==> s[open] == '{' && forall k :: open < k < i ==> !IsBrace(s[k])
    requires forall a: nat, b: nat :: IsGroup(s, a, b) ==> a == open || a >= i
    requires forall a: nat, b: nat :: IsGroup(s, a, b) ==> b >= i
    ensures m.NoMatch? ==> forall a: nat, b: nat :: !IsGroup(s, a, b)
    ensures m.Found? ==> IsGroup(s, m.start, m.end) && forall a: nat, b: nat :: IsGroup(s, a, b) ==> m.start <= a
    decreases |s| - i
  {
    if i == |s| then NoMatch
    else if s[i] == '{' then FindFrom(s, i + 1, i)
    else if s[i] == '}' then
      if open >= 0 then Found(open, i) else FindFrom(s, i + 1, -1)
    else FindFrom(s, i + 1, open)
  }

  /** `s.split('|')`. */
  function SplitBar(s: string): (parts: seq<string>)
    ensures |parts| > 0
    ensures |parts| == 1 ==> parts[0] == s
  {
    if s == "" then [""]
    else
      var tail := SplitBar(s[1..]);
      if s[0] == '|' then [""] + tail else [[s[0]] + tail[0]] + tail[1..]
  }

  lemma {:induction false} SplitAtBar(a: string, b: string)
    requires '|' !in a
    ensures SplitBar(a + "|" + b) == [a] + SplitBar(b)
  {
    var s := a + "|" + b;
    if a == "" {
      assert s[1..] == b;
    } else {
      SplitAtBar(a[1..], b);
      assert s[1..] == a[1..] + "|" + b;
      assert [s[0]] + a[1..] == a;
    }
  }

  lemma {:induction false} SplitPlain(a: string)
    requires '|' !in a
    ensures SplitBar(a) == [a]
  {
    if a != "" {
      SplitPlain(a[1..]);
      assert [a[0]] + a[1..] == a;
    }
  }

  /** No closing brace after an opening one. */
  predicate Quiet(p: string) {
    forall i, j :: 0 <= i < j < |p| && p[i] == '{' ==> p[j] != '}'
  }

  predicate Plain(m: string) {
    forall k :: 0 <= k < |m| ==> !IsBrace(m[k])
  }

  /** The leftmost match is where a quiet prefix meets a brace-free group. */
  lemma FindAfterQuiet(s: string, p: string, m: string, q: string)
    requires s == p + "{" + m + "}" + q
    requires Quiet(p) && Plain(m)
    ensures FindGroup(s) == Found(|p|, |p| + |m| + 1)
    ensures s[|p| + 1..|p| + |m| + 1] == m && s[..|p|] == p && s[|p| + |m| + 2..] == q
  {
    var i, j := |p|, |p| + |m| + 1;
    assert IsGroup(s, i, j);
    var f := FindGroup(s);
    assert forall k :: 0 <= k < i ==> s[k] == p[k];
    assert f.start >= i;
    assert forall k :: i < k < j ==> s[k] == m[k - i - 1];
    assert f.end >= j;
  }

  // ---------------------------------------------------------------- on trees

  predicate HasGroup(d: Doc) {
    match d
    case End => false
    case Lit(_, rest) => HasGroup(rest)
    case Group(_, _) => true
  }

  predicate HasGroupAlts(a: Alts) {
    match a
    case One(d) => HasGroup(d)
    case More(d, tail) => HasGroup(d) || HasGroupAlts(tail)
  }

  function Append(d: Doc, e: Doc): Doc
    requires !HasGroup(d)
  {
    match d
    case End => e
    case Lit(t, rest) => Lit(t, Append(rest, e))
  }

  /** What replaces a resolved group: one of its alternatives, or nothing. */
  datatype Choice = Take(k: nat) | Drop

  function Chosen(a: Alts, c: Choice): Doc
    requires c.Take? ==> c.k < Count(a)
  {
    if c.Take? then Nth(a, c.k) else End
  }

  /** Number of alternatives of the group that closes first. */
  function FirstCount(d: Doc): (n: nat)
    requires HasGroup(d)
    ensures n > 0
  {
    match d
    case Lit(_, rest) => FirstCount(rest)
    case Group(a, _) => if HasGroupAlts(a) then FirstCountAlts(a) else Count(a)
  }

  function FirstCountAlts(a: Alts): (n: nat)
    requires HasGroupAlts(a)
    ensures n > 0
  {
    match a
    case One(d) => FirstCount(d)
    case More(d, tail) => if HasGroup(d) then FirstCount(d) else FirstCountAlts(tail)
  }

  lemma {:induction false} NthFlat(a: Alts, k: nat)
    requires !HasGroupAlts(a) && k < Count(a)
    ensures !HasGroup(Nth(a, k))
    ensures InnerAlts(a) ==> Inner(Nth(a, k))
  {
    if a.More? && k > 0 {
      NthFlat(a.tail, k - 1);
    }
  }

  /** Resolve the group that closes first, the innermost leftmost one. */
  function Step(d: Doc, c: Choice): Doc
    requires HasGroup(d) && (c.Take? ==> c.k < FirstCount(d))
  {
    match d
    case Lit(t, rest) => Lit(t, Step(rest, c))
    case Group(a, rest) =>
      if HasGroupAlts(a) then Group(StepAlts(a, c), rest)
      else
        assert !HasGroup(Chosen(a, c)) by { if c.Take? { NthFlat(a, c.k); } }
        Append(Chosen(a, c), rest)
  }

  function StepAlts(a: Alts, c: Choice): (a': Alts)
    requires HasGroupAlts(a) && (c.Take? ==> c.k < FirstCountAlts(a))
    ensures Count(a') == Count(a)
  {
    match a
    case One(d) => One(Step(d, c))
    case More(d, tail) => if HasGroup(d) then More(Step(d, c), tail) else More(d, StepAlts(tail, c))
  }

  // ---------------------------------------------------------------- the two agree

  /** The text a choice leaves in place of the match. */
  function Replacement(m: string, c: Choice): string
    requires c.Take? ==> c.k < |SplitBar(m)|
  {
    if c.Take? then SplitBar(m)[c.k] else ""
  }

  lemma EncPlain(t: Tok)
    requires t != Ch('{') && t != Ch('}')
    ensures Plain(Enc(t))
    ensures t != Ch('|') ==> '|' !in Enc(t)
  {
  }

  lemma {:induction false} AppendSrc(d: Doc, e: Doc)
    requires !HasGroup(d)
    ensures Src(Append(d, e)) == Src(d) + Src(e)
  {
    hide Enc;
    if d.Lit? {
      AppendSrc(d.rest, e);
      Assoc(Enc(d.t), Src(d.rest), Src(e));
    }
  }

  /** An alternative without groups is plain text without pipes. */
  lemma {:induction false} FlatSrc(d: Doc)
    requires Inner(d) && !HasGroup(d)
    ensures Plain(Src(d)) && '|' !in Src(d)
  {
    hide Enc;
    if d.Lit? {
      FlatSrc(d.rest);
      EncPlain(d.t);
    }
  }

  /** Splitting the text of a flat group gives the texts of its alternatives. */
  lemma {:induction false} FlatAltsSrc(a: Alts, k: nat)
    requires InnerAlts(a) && !HasGroupAlts(a)
    ensures Plain(SrcAlts(a))
    ensures |SplitBar(SrcAlts(a))| == Count(a)
    ensures k < Count(a) ==> SplitBar(SrcAlts(a))[k] == Src(Nth(a, k))
  {
    hide SplitBar, Src;
    match a
    case One(d) =>
      FlatSrc(d);
      SplitPlain(Src(d));
    case More(d, tail) =>
      FlatSrc(d);
      FlatAltsSrc(tail, if k > 0 then k - 1 else 0);
      SplitAtBar(Src(d), SrcAlts(tail));
  }

  /**
   * The first group to close, located in the text: before it nothing is closed after being
   * opened, inside it there is no brace, and resolving it on the tree is replacing it in the text.
   */
  lemma {:induction false} Locate(d: Doc, open: bool, c: Choice) returns (p: string, m: string, q: string)
    requires Wf(d, open) && HasGroup(d) && (c.Take? ==> c.k < FirstCount(d))
    ensures Src(d) == p + "{" + m + "}" + q
    ensures Quiet(p) && (open ==> '}' !in p) && Plain(m)
    ensures |SplitBar(m)| == FirstCount(d)
    ensures Src(Step(d, c)) == p + Replacement(m, c) + q
    decreases d
  {
    hide Enc, SplitBar;
    match d
    case Lit(t, rest) =>
      p, m, q := Locate(rest, open || t == Ch('{'), c);
      if t != Ch('{') && t != Ch('}') {
        EncPlain(t);
      } else {
        EncBrace(t);
      }
      LocateLit(Enc(t), p, m, q, Src(rest), Replacement(m, c), Src(Step(rest, c)));
      p := Enc(t) + p;
    case Group(a, rest) =>
      if HasGroupAlts(a) {
        p, m, q := LocateAlts(a, c);
        LocateGroup(p, m, q, SrcAlts(a), Src(rest), Replacement(m, c), SrcAlts(StepAlts(a, c)));
        p, q := "{" + p, q + "}" + Src(rest);
      } else {
        p, m, q := "", SrcAlts(a), Src(rest);
        FlatAltsSrc(a, if c.Take? then c.k else 0);
        if c.Take? {
          NthFlat(a, c.k);
        }
        AppendSrc(Chosen(a, c), rest);
      }
  }

  lemma {:induction false} LocateAlts(a: Alts, c: Choice) returns (p: string, m: string, q: string)
    requires InnerAlts(a) && HasGroupAlts(a) && (c.Take? ==> c.k < FirstCountAlts(a))
    ensures SrcAlts(a) == p + "{" + m + "}" + q
    ensures '}' !in p && Plain(m)
    ensures |SplitBar(m)| == FirstCountAlts(a)
    ensures SrcAlts(StepAlts(a, c)) == p + Replacement(m, c) + q
    decreases a
  {
    hide SplitBar, Src;
    match a
    case One(d) =>
      InnerWf(d);
      p, m, q := Locate(d, true, c);
    case More(d, tail) =>
      if HasGroup(d) {
        InnerWf(d);
        p, m, q := Locate(d, true, c);
        Assoc(Src(d), "|", SrcAlts(tail));
        Assoc(Src(Step(d, c)), "|", SrcAlts(tail));
        q := q + ("|" + SrcAlts(tail));
      } else {
        FlatSrc(d);
        p, m, q := LocateAlts(tail, c);
        LocateLit(Src(d) + "|", p, m, q, SrcAlts(tail), Replacement(m, c), SrcAlts(StepAlts(tail, c)));
        p := Src(d) + "|" + p;
      }
  }

  lemma EncBrace(t: Tok)
    requires t == Ch('{') || t == Ch('}')
    ensures Enc(t) == [t.c]
  {
  }

  lemma LocateLit(e: string, p: string, m: string, q: string, s: string, r: string, s': string)
    requires s == p + "{" + m + "}" + q && s' == p + r + q
    ensures e + s == (e + p) + "{" + m + "}" + q
    ensures e + s' == (e + p) + r + q
  {
  }

  lemma LocateGroup(p: string, m: string, q: string, s: string, b: string, r: string, s': string)
    requires s == p + "{" + m + "}" + q && s' == p + r + q
    ensures "{" + s + "}" + b == ("{" + p) + "{" + m + "}" + (q + "}" + b)
    ensures "{" + s' + "}" + b == ("{" + p) + r + (q + "}" + b)
  {
  }

  /** Once no group is left, the pattern matches nowhere, whatever stray braces remain. */
  lemma {:induction false} NothingLeft(d: Doc, open: bool)
    requires Wf(d, open) && !HasGroup(d)
    ensures Quiet(Src(d)) && (open ==> '}' !in Src(d))
    ensures FindGroup(Src(d)) == NoMatch
  {
    NothingLeftQuiet(d, open);
  }

  lemma {:induction false} NothingLeftQuiet(d: Doc, open: bool)
    requires Wf(d, open) && !HasGroup(d)
    ensures Quiet(Src(d)) && (open ==> '}' !in Src(d))
  {
    hide Enc;
    if d.Lit? {
      NothingLeftQuiet(d.rest, open || d.t == Ch('{'));
      if d.t != Ch('{') && d.t != Ch('}') {
        EncPlain(d.t);
      } else {
        EncBrace(d.t);
      }
    }
  }

  // ---------------------------------------------------------------- steps keep the form

  lemma {:induction false} AppendWf(d: Doc, e: Doc, open: bool)
    requires !HasGroup(d) && Inner(d) && Wf(e, open)
    ensures Wf(Append(d, e), open)
  {
    if d.Lit? {
      AppendWf(d.rest, e, open);
    }
  }

  lemma {:induction false} AppendInner(d: Doc, e: Doc)
    requires !HasGroup(d) && Inner(d) && Inner(e)
    ensures Inner(Append(d, e))
  {
    if d.Lit? {
      AppendInner(d.rest, e);
    }
  }

  lemma {:induction false} StepWf(d: Doc, open: bool, c: Choice)
    requires Wf(d, open) && HasGroup(d) && (c.Take? ==> c.k < FirstCount(d))
    ensures Wf(Step(d, c), open)
  {
    match d
    case Lit(t, rest) => StepWf(rest, open || t == Ch('{'), c);
    case Group(a, rest) =>
      if HasGroupAlts(a) {
        StepInnerAlts(a, c);
      } else {
        if c.Take? {
          NthFlat(a, c.k);
        }
        AppendWf(Chosen(a, c), rest, open);
      }
  }

  lemma {:induction false} StepInner(d: Doc, c: Choice)
    requires Inner(d) && HasGroup(d) && (c.Take? ==> c.k < FirstCount(d))
    ensures Inner(Step(d, c))
    decreases d
  {
    match d
    case Lit(_, rest) => StepInner(rest, c);
    case Group(a, rest) =>
      if HasGroupAlts(a) {
        StepInnerAlts(a, c);
      } else {
        if c.Take? {
          NthFlat(a, c.k);
        }
        AppendInner(Chosen(a, c), rest);
      }
  }

  lemma {:induction false} StepInnerAlts(a: Alts, c: Choice)
    requires InnerAlts(a) && HasGroupAlts(a) && (c.Take? ==> c.k < FirstCountAlts(a))
    ensures InnerAlts(StepAlts(a, c))
    decreases a
  {
    match a
    case One(d) => StepInner(d, c);
    case More(d, tail) =>
      if HasGroup(d) {
        StepInner(d, c);
      } else {
        StepInnerAlts(tail, c);
      }
  }
}
