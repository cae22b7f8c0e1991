/** `firstSpintaxVariant`: the preview's own spintax collapse, and what it does to the template tree. */
module Preview {
  import opened Seqs
  import opened Text
  import opened Template
  import opened Document
  import opened Rewriting

  const PASSES := 10

  // ---------------------------------------------------------------- the regular expression

  predicate NotBrace(c: char) {
    !IsBrace(c)
  }

  /** Length of the match of `\{([^{}]*\|[^{}]*)\}(?!\})` at the head of `s`, or 0. */
  function GroupLen(s: string): (n: nat)
    ensures n <= |s|
    ensures n > 0 ==> n > 2 && s[0] == '{'
  {
    if s == "" || s[0] != '{' then 0
    else
      var n := Run(s[1..], NotBrace);
      if n + 1 < |s| && s[n + 1] == '}' && '|' in s[1..n + 1] && !(n + 2 < |s| && s[n + 2] == '}') then n + 2
      else 0
  }

  /**
   * One global replace of `(^|[^{])` followed by a group: the group becomes its first option.
   * A match needs the start of the text or a character of its own before the group, and that
   * character may not belong to the match before.
   */
  function CollapseOnce(s: string, start: bool): string
    decreases |s|
  {
    if s == "" then ""
    else if start && GroupLen(s) > 0 then
      var n := GroupLen(s);
      SplitBar(s[1..n - 1])[0] + CollapseOnce(s[n..], false)
    else if s[0] != '{' && GroupLen(s[1..]) > 0 then
      var n := GroupLen(s[1..]);
      [s[0]] + SplitBar(s[2..n])[0] + CollapseOnce(s[n + 1..], false)
    else [s[0]] + CollapseOnce(s[1..], false)
  }

  function Collapse(s: string, passes: nat): string
    decreases passes
  {
    if passes == 0 then s else Collapse(CollapseOnce(s, true), passes - 1)
  }

  lemma {:induction false} CollapseStable(s: string, passes: nat)
    requires CollapseOnce(s, true) == s
    ensures Collapse(s, passes) == s
  {
    if passes > 0 {
      CollapseStable(s, passes - 1);
    }
  }

  /** `firstSpintaxVariant`: stops at a fixpoint, or after ten passes. */
  method FirstSpintaxVariant(text: string) returns (out: string)
    ensures out == Collapse(text, PASSES)
  {
    hide CollapseOnce;
    out := text;
    for i := 0 to PASSES
      invariant Collapse(out, PASSES - i) == Collapse(text, PASSES)
    {
      var next := CollapseOnce(out, true);
      if next == out {
        CollapseStable(out, PASSES - i);
        return;
      }
      out := next;
    }
  }

  // ---------------------------------------------------------------- one pass on the tree

  /** The text of a tree, placeholders included. */
  function Print(d: Doc, fields: seq<string>): string {
    match d
    case End => ""
    case Lit(t, rest) => Meaning(t, fields) + Print(rest, fields)
    case Group(a, rest) => "{" + (PrintAlts(a, fields) + ("}" + Print(rest, fields)))
  }

  function PrintAlts(a: Alts, fields: seq<string>): string {
    match a
    case One(d) => Print(d, fields)
    case More(d, tail) => Print(d, fields) + ("|" + PrintAlts(tail, fields))
  }

  /** `{{…}}` around text without braces and pipes. */
  predicate IsField(f: string) {
    && |f| >= 4 && f[..2] == "{{" && f[|f| - 2..] == "}}"
    && forall k :: 2 <= k < |f| - 2 ==> !IsBrace(f[k]) && f[k] != '|'
  }

  predicate HeldTok(t: Tok, fields: seq<string>) {
    t.Hole? ==> t.index < |fields| && IsField(fields[t.index])
  }

  /** Every hole stands for a placeholder. */
  predicate Held(d: Doc, fields: seq<string>) {
    match d
    case End => true
    case Lit(t, rest) => HeldTok(t, fields) && Held(rest, fields)
    case Group(a, rest) => HeldAlts(a, fields) && Held(rest, fields)
  }

  predicate HeldAlts(a: Alts, fields: seq<string>) {
    match a
    case One(d) => Held(d, fields)
    case More(d, tail) => Held(d, fields) && HeldAlts(tail, fields)
  }

  /** Text only: neither a group nor a placeholder. */
  predicate Bare(d: Doc): (b: bool)
    ensures b ==> !HasGroup(d)
  {
    match d
    case End => true
    case Lit(t, rest) => t.Ch? && Bare(rest)
    case Group(_, _) => false
  }

  predicate BareAlts(a: Alts): (b: bool)
    ensures b ==> Bare(a.d)
  {
    match a
    case One(d) => Bare(d)
    case More(d, tail) => Bare(d) && BareAlts(tail)
  }

  /** The text of `d` starts with a closing brace; `last` says that one follows `d`. */
  predicate Shuts(d: Doc, last: bool) {
    if d.End? then last else d.Lit? && d.t == Ch('}')
  }

  /** The regular expression sees a group without braces inside that no closing brace follows. */
  predicate Seen(a: Alts, rest: Doc, last: bool) {
    a.More? && BareAlts(a) && !Shuts(rest, last)
  }

  /**
   * One pass over the tree. `ready` says that the character before `d` is not an opening brace and
   * does not belong to another match of this pass.
   */
  function Pass(d: Doc, ready: bool, last: bool): Doc {
    match d
    case End => End
    case Lit(t, rest) => Lit(t, Pass(rest, t != Ch('{'), last))
    case Group(a, rest) =>
      if ready && Seen(a, rest, last) then Append(a.d, Pass(rest, false, last))
      else Group(PassAlts(a, false), Pass(rest, true, last))
  }

  function PassAlts(a: Alts, ready: bool): Alts {
    match a
    case One(d) => One(Pass(d, ready, true))
    case More(d, tail) => More(Pass(d, ready, false), PassAlts(tail, true))
  }

  /** Whether the character before what follows `d` is free. */
  function ReadyAfter(d: Doc, ready: bool, last: bool): bool {
    match d
    case End => ready
    case Lit(t, rest) => ReadyAfter(rest, t != Ch('{'), last)
    case Group(a, rest) => ReadyAfter(rest, !(ready && Seen(a, rest, last)), last)
  }

  function PassN(d: Doc, n: nat): Doc
    decreases n
  {
    if n == 0 then d else PassN(Pass(d, true, false), n - 1)
  }

  // ---------------------------------------------------------------- where the pattern matches

  /** The first brace, if any, opens. */
  ghost predicate Opens(x: string) {
    exists k :: 0 <= k < |x| && x[k] == '{' && Plain(x[..k])
  }

  lemma OpensBehind(x: string, y: string)
    requires Plain(x) && Opens(y)
    ensures Opens(x + y)
  {
    var k :| 0 <= k < |y| && y[k] == '{' && Plain(y[..k]);
    var s := x + y;
    assert forall i :: 0 <= i < |x| ==> s[i] == x[i];
    assert forall i :: |x| <= i < |x| + k ==> s[i] == y[..k][i - |x|];
    assert s[|x| + k] == '{' && Plain(s[..|x| + k]);
  }

  lemma OpensBefore(x: string, y: string)
    requires Opens(x)
    ensures Opens(x + y)
  {
    var k :| 0 <= k < |x| && x[k] == '{' && Plain(x[..k]);
    var s := x + y;
    assert s[k] == '{' && s[..k] == x[..k];
  }

  lemma OpensHead(x: string)
    requires x != "" && x[0] == '{'
    ensures Opens(x)
  {
    assert Plain(x[..0]);
  }

  /** A brace inside, or nothing that closes: no match at this opening brace. */
  lemma NoMatchInside(x: string)
    requires Opens(x) || Plain(x)
    ensures GroupLen("{" + x) == 0
  {
    var s := "{" + x;
    assert s[1..] == x;
    var n := Run(x, NotBrace);
    if Opens(x) {
      var k :| 0 <= k < |x| && x[k] == '{' && Plain(x[..k]);
      assert forall i :: 0 <= i < k ==> x[..k][i] == x[i];
      assert n == k;
    }
  }

  /** A group without braces is matched exactly when it has a pipe and no closing brace follows. */
  lemma GroupMatches(m: string, y: string)
    requires Plain(m)
    ensures var s := "{" + (m + ("}" + y));
            && GroupLen(s) == (if '|' in m && (y == "" || y[0] != '}') then |m| + 2 else 0)
            && s[1..|m| + 1] == m && s[|m| + 2..] == y
  {
    var s := "{" + (m + ("}" + y));
    assert s[1..] == m + ("}" + y);
    RunEnds(m, "}" + y, NotBrace);
    assert s[1..|m| + 1] == m;
    assert s[|m| + 2..] == y;
  }

  // ---------------------------------------------------------------- how one replace proceeds

  lemma NoMatchAtStart(s: string)
    requires GroupLen(s) == 0
    ensures CollapseOnce(s, true) == CollapseOnce(s, false)
    ensures forall c :: CollapseOnce([c] + s, false) == [c] + CollapseOnce(s, false)
  {
    forall c ensures CollapseOnce([c] + s, false) == [c] + CollapseOnce(s, false) {
      assert ([c] + s)[1..] == s;
    }
  }

  lemma CollapseMatch(s: string, c: char)
    requires GroupLen(s) > 0 && c != '{'
    ensures var n := GroupLen(s); var y := SplitBar(s[1..n - 1])[0] + CollapseOnce(s[n..], false);
            CollapseOnce(s, true) == y && CollapseOnce([c] + s, false) == [c] + y
  {
    hide GroupLen, SplitBar;
    var n := GroupLen(s);
    var t := [c] + s;
    assert t[0] == c && t[1..] == s && t[2..n] == s[1..n - 1] && t[n + 1..] == s[n..];
    Assoc([c], SplitBar(s[1..n - 1])[0], CollapseOnce(s[n..], false));
  }

  /** Any character but an opening brace is copied and serves a group right behind it. */
  lemma CopyChar(c: char, s: string, ready: bool)
    requires c != '{'
    ensures CollapseOnce([c] + s, ready) == [c] + CollapseOnce(s, true)
  {
    hide CollapseOnce;
    assert GroupLen([c] + s) == 0;
    NoMatchAtStart([c] + s);
    if GroupLen(s) > 0 {
      CollapseMatch(s, c);
    } else {
      NoMatchAtStart(s);
    }
  }

  /** An opening brace where no match starts is copied and serves no group. */
  lemma CopyOpen(s: string, ready: bool)
    requires ready ==> GroupLen("{" + s) == 0
    ensures CollapseOnce("{" + s, ready) == "{" + CollapseOnce(s, false)
  {
    assert ("{" + s)[1..] == s;
  }

  lemma {:induction false} CopyText(x: string, y: string, ready: bool)
    requires x != "" && '{' !in x
    ensures CollapseOnce(x + y, ready) == x + CollapseOnce(y, true)
  {
    hide CollapseOnce;
    var t := x[1..];
    Uncons(x);
    Assoc([x[0]], t, y);
    CopyChar(x[0], t + y, ready);
    if t == "" {
      assert t + y == y;
    } else {
      CopyText(t, y, true);
      Assoc([x[0]], t, CollapseOnce(y, true));
    }
  }

  /** A placeholder is copied. */
  lemma CopyField(f: string, y: string, ready: bool)
    requires IsField(f)
    ensures CollapseOnce(f + y, ready) == f + CollapseOnce(y, true)
  {
    hide CollapseOnce, GroupLen;
    var m := f[2..|f| - 2];
    var x := m + "}}";
    FieldParts(f);
    assert f + y == "{" + ("{" + (x + y));
    OpensHead("{" + (x + y));
    NoMatchInside("{" + (x + y));
    CopyOpen("{" + (x + y), ready);
    CopyOpen(x + y, false);
    CopyTextAfterOpen(x, y);
    assert f + CollapseOnce(y, true) == "{" + ("{" + (x + CollapseOnce(y, true)));
  }

  lemma CopyTextAfterOpen(x: string, y: string)
    requires x != "" && '{' !in x
    ensures CollapseOnce(x + y, false) == x + CollapseOnce(y, true)
  {
    hide CollapseOnce;
    CopyText(x, y, false);
  }

  lemma FieldParts(f: string)
    requires IsField(f)
    ensures var x := f[2..|f| - 2] + "}}"; f == "{" + ("{" + x) && '{' !in x
  {
    var x := f[2..|f| - 2] + "}}";
    assert f == f[..2] + f[2..|f| - 2] + f[|f| - 2..];
    assert forall k :: 0 <= k < |f| - 4 ==> x[k] == f[k + 2];
  }

  // ---------------------------------------------------------------- what a group looks like in the text

  lemma {:induction false} BarePrint(d: Doc, fields: seq<string>)
    requires Inner(d) && Held(d, fields)
    ensures Bare(d) ==> Plain(Print(d, fields)) && '|' !in Print(d, fields)
    ensures !Bare(d) ==> Opens(Print(d, fields))
  {
    hide Opens, IsField, Plain;
    match d
    case End => PlainNone();
    case Lit(t, rest) =>
      BarePrint(rest, fields);
      TokPrint(t, Print(rest, fields), fields);
    case Group(a, rest) =>
      OpensHead(Print(d, fields));
  }

  lemma PlainNone()
    ensures Plain("")
  {
  }

  lemma TokPrint(t: Tok, x: string, fields: seq<string>)
    requires t != Ch('{') && t != Ch('}') && HeldTok(t, fields)
    ensures t.Hole? ==> Opens(Meaning(t, fields) + x)
    ensures t.Ch? ==> (Plain(x) ==> Plain(Meaning(t, fields) + x)) && (Opens(x) ==> Opens(Meaning(t, fields) + x))
  {
    hide Opens;
    if t.Hole? {
      assert Meaning(t, fields)[..2][0] == '{';
      OpensHead(Meaning(t, fields) + x);
    } else if Opens(x) {
      OpensBehind([t.c], x);
    }
  }

  lemma {:induction false} BareAltsPrint(a: Alts, fields: seq<string>)
    requires InnerAlts(a) && HeldAlts(a, fields)
    ensures var m := PrintAlts(a, fields);
            && (BareAlts(a) ==> Plain(m) && ('|' in m <==> a.More?) && SplitBar(m)[0] == Print(a.d, fields))
            && (!BareAlts(a) ==> Opens(m))
  {
    hide Opens, Print, Bare, Plain, SplitBar;
    match a
    case One(d) =>
      BarePrint(d, fields);
      if BareAlts(a) {
        SplitPlain(Print(d, fields));
      }
    case More(d, tail) =>
      BarePrint(d, fields);
      BareAltsPrint(tail, fields);
      BareMore(d, tail, fields);
  }

  lemma BareMore(d: Doc, tail: Alts, fields: seq<string>)
    requires Bare(d) ==> Plain(Print(d, fields)) && '|' !in Print(d, fields)
    requires !Bare(d) ==> Opens(Print(d, fields))
    requires BareAlts(tail) ==> Plain(PrintAlts(tail, fields))
    requires !BareAlts(tail) ==> Opens(PrintAlts(tail, fields))
    ensures var m := PrintAlts(More(d, tail), fields); var x := Print(d, fields);
            && (Bare(d) && BareAlts(tail) ==> Plain(m) && '|' in m && SplitBar(m)[0] == x)
            && (!(Bare(d) && BareAlts(tail)) ==> Opens(m))
  {
    hide Opens, Print, Bare, SplitBar;
    var x, y := Print(d, fields), PrintAlts(tail, fields);
    Assoc(x, "|", y);
    if !Bare(d) {
      OpensBefore(x, "|" + y);
    } else if !BareAlts(tail) {
      assert Plain(x + "|");
      OpensBehind(x + "|", y);
    } else {
      SplitAtBar(x, y);
      assert (x + ("|" + y))[|x|] == '|';
    }
  }

  /** Behind a stray opening brace the next brace, if any, opens. */
  lemma {:induction false} StrayPrint(d: Doc, fields: seq<string>)
    requires Wf(d, true) && Held(d, fields)
    ensures Opens(Print(d, fields)) || Plain(Print(d, fields))
  {
    hide Opens, IsField, Plain;
    match d
    case End => PlainNone();
    case Lit(t, rest) =>
      StrayPrint(rest, fields);
      if t == Ch('{') {
        OpensHead(Print(d, fields));
      } else {
        TokPrint(t, Print(rest, fields), fields);
      }
    case Group(a, rest) =>
      OpensHead(Print(d, fields));
  }

  /** The text after `d` starts with a closing brace or not, as `last` says. */
  predicate Follows(y: string, last: bool) {
    last <==> y != "" && y[0] == '}'
  }

  lemma ShutsPrint(d: Doc, fields: seq<string>, last: bool, y: string)
    requires Held(d, fields) && Follows(y, last)
    ensures Follows(Print(d, fields) + y, Shuts(d, last))
  {
    if d.End? {
      assert Print(d, fields) + y == y;
    } else if d.Lit? && d.t.Hole? {
      assert Meaning(d.t, fields)[..2][0] == '{';
    }
  }

  /** The pattern matches at a group exactly when the pass sees it. */
  lemma SeenPrint(a: Alts, rest: Doc, fields: seq<string>, last: bool, y: string)
    requires InnerAlts(a) && HeldAlts(a, fields) && Held(rest, fields) && Follows(y, last)
    ensures var m := PrintAlts(a, fields); var z := Print(rest, fields) + y; var s := "{" + (m + ("}" + z));
            && GroupLen(s) == (if Seen(a, rest, last) then |m| + 2 else 0)
            && s[1..|m| + 1] == m && s[|m| + 2..] == z
            && (Seen(a, rest, last) ==> SplitBar(m)[0] == Print(a.d, fields))
  {
    hide GroupLen, Opens, Print, PrintAlts, SplitBar, BareAlts, InnerAlts, HeldAlts, Held, Shuts, Plain;
    var m, z := PrintAlts(a, fields), Print(rest, fields) + y;
    BareAltsPrint(a, fields);
    ShutsPrint(rest, fields, last, y);
    SliceGroup(m, z);
    if BareAlts(a) {
      GroupMatches(m, z);
    } else {
      OpensBefore(m, "}" + z);
      NoMatchInside(m + ("}" + z));
    }
  }

  lemma SliceGroup(m: string, z: string)
    ensures var s := "{" + (m + ("}" + z)); s[1..|m| + 1] == m && s[|m| + 2..] == z
  {
    var s := "{" + (m + ("}" + z));
    assert s[1..] == m + ("}" + z);
    assert s[1..|m| + 1] == m;
  }

  // ---------------------------------------------------------------- one replace is one pass

  lemma {:induction false} AppendPrint(d: Doc, e: Doc, fields: seq<string>)
    requires !HasGroup(d)
    ensures Print(Append(d, e), fields) == Print(d, fields) + Print(e, fields)
  {
    hide Meaning;
    if d.Lit? {
      AppendPrint(d.rest, e, fields);
      Assoc(Meaning(d.t, fields), Print(d.rest, fields), Print(e, fields));
    }
  }

  /** On any template one global replace is one pass over its tree. */
  lemma {:induction false} PassWrites(d: Doc, open: bool, ready: bool, last: bool, y: string, fields: seq<string>)
    requires Wf(d, open) && Held(d, fields) && Follows(y, last)
    requires Inner(d) || y == ""
    ensures CollapseOnce(Print(d, fields) + y, ready)
            == Print(Pass(d, ready, last), fields) + CollapseOnce(y, ReadyAfter(d, ready, last))
    decreases d
  {
    hide CollapseOnce, Meaning, IsField, Print, Seen, InnerAlts, HeldAlts, Follows;
    match d
    case End =>
      PrintEnd(fields);
      assert "" + y == y;
    case Lit(t, rest) =>
      PassWrites(rest, open || t == Ch('{'), t != Ch('{'), last, y, fields);
      PassWritesLit(t, rest, ready, last, y, fields);
    case Group(a, rest) =>
      if ready && Seen(a, rest, last) {
        PassWrites(rest, open, false, last, y, fields);
        PassWritesTaken(a, rest, last, y, fields);
      } else {
        PassWrites(rest, open, true, last, y, fields);
        PassWritesAlts(a, false, Print(rest, fields) + y, fields);
        PassWritesLeft(a, rest, ready, last, y, fields);
      }
  }

  lemma PrintEnd(fields: seq<string>)
    ensures Print(End, fields) == ""
  {
  }

  lemma PassWritesLit(t: Tok, rest: Doc, ready: bool, last: bool, y: string, fields: seq<string>)
    requires HeldTok(t, fields) && Held(rest, fields)
    requires t == Ch('{') ==> Wf(rest, true) && y == ""
    requires CollapseOnce(Print(rest, fields) + y, t != Ch('{'))
             == Print(Pass(rest, t != Ch('{'), last), fields) + CollapseOnce(y, ReadyAfter(rest, t != Ch('{'), last))
    ensures var d := Lit(t, rest);
            CollapseOnce(Print(d, fields) + y, ready)
            == Print(Pass(d, ready, last), fields) + CollapseOnce(y, ReadyAfter(d, ready, last))
  {
    var x := Print(rest, fields);
    var x' := Print(Pass(rest, t != Ch('{'), last), fields);
    var z := CollapseOnce(y, ReadyAfter(rest, t != Ch('{'), last));
    LitPass(t, rest, ready, last, fields);
    hide CollapseOnce, IsField, Print, Pass, ReadyAfter, Wf, Opens, Plain, GroupLen;
    Assoc(Meaning(t, fields), x, y);
    Assoc(Meaning(t, fields), x', z);
    if t.Hole? {
      CopyField(fields[t.index], x + y, ready);
    } else if t.c == '{' {
      StrayPrint(rest, fields);
      assert x + y == x;
      NoMatchInside(x);
      CopyOpen(x + y, ready);
    } else {
      CopyChar(t.c, x + y, ready);
    }
  }

  lemma LitPass(t: Tok, rest: Doc, ready: bool, last: bool, fields: seq<string>)
    ensures var d := Lit(t, rest); var free := t != Ch('{');
            && Print(d, fields) == Meaning(t, fields) + Print(rest, fields)
            && Print(Pass(d, ready, last), fields) == Meaning(t, fields) + Print(Pass(rest, free, last), fields)
            && ReadyAfter(d, ready, last) == ReadyAfter(rest, free, last)
  {
  }

  lemma PassWritesTaken(a: Alts, rest: Doc, last: bool, y: string, fields: seq<string>)
    requires InnerAlts(a) && HeldAlts(a, fields) && Held(rest, fields) && Follows(y, last) && Seen(a, rest, last)
    requires CollapseOnce(Print(rest, fields) + y, false)
             == Print(Pass(rest, false, last), fields) + CollapseOnce(y, ReadyAfter(rest, false, last))
    ensures var d := Group(a, rest);
            CollapseOnce(Print(d, fields) + y, true)
            == Print(Pass(d, true, last), fields) + CollapseOnce(y, ReadyAfter(d, true, last))
  {
    var x' := Print(Pass(rest, false, last), fields);
    var z := CollapseOnce(y, ReadyAfter(rest, false, last));
    hide *;
    TakenPass(a, rest, last, fields);
    SeenPrint(a, rest, fields, last, y);
    GroupText(a, rest, y, fields);
    CollapseMatch(Print(Group(a, rest), fields) + y, 'x');
    Assoc(Print(a.d, fields), x', z);
  }

  lemma TakenPass(a: Alts, rest: Doc, last: bool, fields: seq<string>)
    requires Seen(a, rest, last)
    ensures Print(Pass(Group(a, rest), true, last), fields)
            == Print(a.d, fields) + Print(Pass(rest, false, last), fields)
    ensures ReadyAfter(Group(a, rest), true, last) == ReadyAfter(rest, false, last)
  {
    AppendPrint(a.d, Pass(rest, false, last), fields);
  }

  lemma GroupText(a: Alts, rest: Doc, y: string, fields: seq<string>)
    ensures Print(Group(a, rest), fields) + y == "{" + (PrintAlts(a, fields) + ("}" + (Print(rest, fields) + y)))
  {
    hide Print, PrintAlts;
    var m, x := PrintAlts(a, fields), Print(rest, fields);
    GroupPrint(a, rest, fields);
    Assoc("{", m + ("}" + x), y);
    Assoc(m, "}" + x, y);
    Assoc("}", x, y);
  }

  lemma GroupPrint(a: Alts, rest: Doc, fields: seq<string>)
    ensures Print(Group(a, rest), fields) == "{" + (PrintAlts(a, fields) + ("}" + Print(rest, fields)))
  {
  }

  lemma PassWritesLeft(a: Alts, rest: Doc, ready: bool, last: bool, y: string, fields: seq<string>)
    requires InnerAlts(a) && HeldAlts(a, fields) && Held(rest, fields) && Follows(y, last)
    requires !(ready && Seen(a, rest, last))
    requires CollapseOnce(Print(rest, fields) + y, true)
             == Print(Pass(rest, true, last), fields) + CollapseOnce(y, ReadyAfter(rest, true, last))
    requires var z := Print(rest, fields) + y;
             CollapseOnce(PrintAlts(a, fields) + ("}" + z), false)
             == PrintAlts(PassAlts(a, false), fields) + ("}" + CollapseOnce(z, true))
    ensures var d := Group(a, rest);
            CollapseOnce(Print(d, fields) + y, ready)
            == Print(Pass(d, ready, last), fields) + CollapseOnce(y, ReadyAfter(d, ready, last))
  {
    LeftPass(a, rest, ready, last);
    hide *;
    var z := CollapseOnce(y, ReadyAfter(rest, true, last));
    SeenPrint(a, rest, fields, last, y);
    GroupText(a, rest, y, fields);
    CopyOpen(PrintAlts(a, fields) + ("}" + (Print(rest, fields) + y)), ready);
    GroupText(PassAlts(a, false), Pass(rest, true, last), z, fields);
  }

  lemma LeftPass(a: Alts, rest: Doc, ready: bool, last: bool)
    requires !(ready && Seen(a, rest, last))
    ensures Pass(Group(a, rest), ready, last) == Group(PassAlts(a, false), Pass(rest, true, last))
    ensures ReadyAfter(Group(a, rest), ready, last) == ReadyAfter(rest, true, last)
  {
  }

  lemma {:induction false} PassWritesAlts(a: Alts, ready: bool, y: string, fields: seq<string>)
    requires InnerAlts(a) && HeldAlts(a, fields)
    ensures CollapseOnce(PrintAlts(a, fields) + ("}" + y), ready)
            == PrintAlts(PassAlts(a, ready), fields) + ("}" + CollapseOnce(y, true))
    decreases a
  {
    hide CollapseOnce, Print, Pass, ReadyAfter, Inner, Held, Wf;
    match a
    case One(d) =>
      InnerWf(d);
      PassWrites(d, true, ready, true, "}" + y, fields);
      CopyChar('}', y, ReadyAfter(d, ready, true));
    case More(d, tail) =>
      InnerWf(d);
      var z := PrintAlts(tail, fields) + ("}" + y);
      PassWrites(d, true, ready, false, "|" + z, fields);
      CopyChar('|', z, ReadyAfter(d, ready, false));
      PassWritesAlts(tail, true, y, fields);
      MoreText(d, tail, "}" + y, fields);
      MoreText(Pass(d, ready, false), PassAlts(tail, true), "}" + CollapseOnce(y, true), fields);
  }

  lemma MoreText(d: Doc, tail: Alts, y: string, fields: seq<string>)
    ensures PrintAlts(More(d, tail), fields) + y == Print(d, fields) + ("|" + (PrintAlts(tail, fields) + y))
  {
    hide Print;
    var x, m := Print(d, fields), PrintAlts(tail, fields);
    Assoc(x, "|" + m, y);
    Assoc("|", m, y);
  }

  // ---------------------------------------------------------------- passes keep the form

  lemma {:induction false} AppendHeld(d: Doc, e: Doc, fields: seq<string>)
    requires !HasGroup(d) && Held(d, fields) && Held(e, fields)
    ensures Held(Append(d, e), fields)
  {
    hide HeldTok;
    if d.Lit? {
      AppendHeld(d.rest, e, fields);
    }
  }

  lemma {:induction false} PassHeld(d: Doc, ready: bool, last: bool, fields: seq<string>)
    requires Held(d, fields)
    ensures Held(Pass(d, ready, last), fields)
    decreases d
  {
    hide HeldTok, Seen;
    match d
    case End =>
    case Lit(t, rest) => PassHeld(rest, t != Ch('{'), last, fields);
    case Group(a, rest) =>
      if ready && Seen(a, rest, last) {
        PassHeld(rest, false, last, fields);
        SeenBare(a, rest, last);
        AppendHeld(a.d, Pass(rest, false, last), fields);
      } else {
        PassHeld(rest, true, last, fields);
        PassAltsHeld(a, false, fields);
      }
  }

  lemma {:induction false} PassAltsHeld(a: Alts, ready: bool, fields: seq<string>)
    requires HeldAlts(a, fields)
    ensures HeldAlts(PassAlts(a, ready), fields)
    decreases a
  {
    PassHeld(a.d, ready, a.One?, fields);
    if a.More? {
      PassAltsHeld(a.tail, true, fields);
    }
  }

  lemma SeenBare(a: Alts, rest: Doc, last: bool)
    requires Seen(a, rest, last)
    ensures BareAlts(a) && Bare(a.d) && a.More? && !Shuts(rest, last)
  {
  }

  lemma {:induction false} PassWf(d: Doc, open: bool, ready: bool, last: bool)
    requires Wf(d, open)
    ensures Wf(Pass(d, ready, last), open)
    ensures Inner(d) ==> Inner(Pass(d, ready, last))
    decreases d
  {
    hide Seen, InnerAlts;
    match d
    case End =>
    case Lit(t, rest) => PassWf(rest, open || t == Ch('{'), t != Ch('{'), last);
    case Group(a, rest) =>
      if ready && Seen(a, rest, last) {
        PassWf(rest, open, false, last);
        SeenBare(a, rest, last);
        TakenWf(a, Pass(rest, false, last), open);
      } else {
        PassWf(rest, open, true, last);
        PassAltsInner(a, false);
      }
  }

  lemma TakenWf(a: Alts, e: Doc, open: bool)
    requires InnerAlts(a) && Bare(a.d) && Wf(e, open)
    ensures var d := Append(a.d, e); Wf(d, open) && (Inner(e) ==> Inner(d))
  {
    hide Wf, Append, Inner;
    assert Inner(a.d) by { AltInner(a); }
    AppendWf(a.d, e, open);
    if Inner(e) {
      AppendInner(a.d, e);
    }
  }

  lemma AltInner(a: Alts)
    requires InnerAlts(a)
    ensures Inner(a.d)
  {
  }

  lemma {:induction false} PassAltsInner(a: Alts, ready: bool)
    requires InnerAlts(a)
    ensures InnerAlts(PassAlts(a, ready))
    decreases a
  {
    InnerWf(a.d);
    PassWf(a.d, true, ready, a.One?);
    if a.More? {
      PassAltsInner(a.tail, true);
    }
  }

  /** `k` replaces are `k` passes over the tree. */
  lemma {:induction false} CollapseWrites(d: Doc, fields: seq<string>, k: nat)
    requires Wf(d, false) && Held(d, fields)
    ensures Collapse(Print(d, fields), k) == Print(PassN(d, k), fields)
    decreases k
  {
    hide CollapseOnce, Print, Pass, Held, Wf;
    if k > 0 {
      PassWf(d, false, true, false);
      PassHeld(d, true, false, fields);
      PassWrites(d, false, true, false, "", fields);
      assert Print(d, fields) + "" == Print(d, fields);
      NothingAfter(ReadyAfter(d, true, false));
      assert Print(Pass(d, true, false), fields) + "" == Print(Pass(d, true, false), fields);
      CollapseWrites(Pass(d, true, false), fields, k - 1);
    }
  }

  lemma NothingAfter(ready: bool)
    ensures CollapseOnce("", ready) == ""
  {
  }
}
