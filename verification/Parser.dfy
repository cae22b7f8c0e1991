/** Every string of pieces is the source of exactly one well-formed template. */
module Parser {
  import opened Seqs
  import opened Template
  import opened Document

  /** Nesting depth after piece `t`, which is not an unmatched closing brace. */
  function Next(t: Tok, depth: nat): nat
    requires !(t == Ch('}') && depth == 0)
  {
    if t == Ch('{') then depth + 1 else if t == Ch('}') then depth - 1 else depth
  }

  /** Index of the brace that closes the group `depth` levels out, or |s| when there is none. */
  function Close(s: seq<Tok>, depth: nat): (k: nat)
    ensures k <= |s|
    ensures k < |s| ==> s[k] == Ch('}')
  {
    if s == [] || (s[0] == Ch('}') && depth == 0) then 0 else 1 + Close(s[1..], Next(s[0], depth))
  }

  /** Index of the first pipe outside any group, or |s|. */
  function Bar(s: seq<Tok>, depth: nat): (k: nat)
    ensures k <= |s|
    ensures k < |s| ==> s[k] == Ch('|')
  {
    if s == [] || (s[0] == Ch('|') && depth == 0) then 0
    else 1 + Bar(s[1..], if s[0] == Ch('}') && depth == 0 then 0 else Next(s[0], depth))
  }

  /** Starting `depth` groups deep, every brace of `s` is matched and all groups are closed. */
  predicate Bal(s: seq<Tok>, depth: nat) {
    if s == [] then depth == 0
    else !(s[0] == Ch('}') && depth == 0) && Bal(s[1..], Next(s[0], depth))
  }

  /** An opening brace without a partner is literal text. */
  function Parse(s: seq<Tok>): Doc
    decreases |s|, 0
  {
    if s == [] then End
    else if s[0] == Ch('{') && Close(s[1..], 0) < |s| - 1 then
      var k := Close(s[1..], 0);
      Group(ParseAlts(s[1..][..k]), Parse(s[1..][k + 1..]))
    else Lit(s[0], Parse(s[1..]))
  }

  function ParseAlts(s: seq<Tok>): Alts
    decreases |s|, 1
  {
    var b := Bar(s, 0);
    if b < |s| then More(Parse(s[..b]), ParseAlts(s[b + 1..])) else One(Parse(s))
  }

  // ---------------------------------------------------------------- printing after parsing

  lemma {:induction false} FlatParse(s: seq<Tok>)
    ensures Flat(Parse(s)) == s
    decreases |s|, 0
  {
    hide Close, Bar, ParseAlts, Flat;
    if s == [] {
      FlatEnd();
    } else {
      var t := s[1..];
      var k := Close(t, 0);
      if s[0] == Ch('{') && k < |t| {
        FlatParseAlts(t[..k]);
        FlatParse(t[k + 1..]);
        FlatGroup(ParseAlts(t[..k]), Parse(t[k + 1..]));
      } else {
        FlatParse(t);
        FlatLit(s[0], Parse(t));
        assert s == [s[0]] + t;
      }
    }
  }

  lemma FlatEnd()
    ensures Flat(End) == []
  {
  }

  lemma FlatLit(t: Tok, rest: Doc)
    ensures var s := Flat(Lit(t, rest)); s == [t] + Flat(rest) && s[0] == t && s[1..] == Flat(rest)
  {
  }

  lemma FlatGroup(a: Alts, rest: Doc)
    ensures var s := Flat(Group(a, rest));
            s == [Ch('{')] + FlatAlts(a) + [Ch('}')] + Flat(rest)
            && s[0] == Ch('{') && s[1..] == FlatAlts(a) + [Ch('}')] + Flat(rest)
  {
    Bracketed(Ch('{'), FlatAlts(a), Ch('}'), Flat(rest));
  }

  lemma {:induction false} FlatParseAlts(s: seq<Tok>)
    ensures FlatAlts(ParseAlts(s)) == s
    decreases |s|, 1
  {
    hide Bar, Parse;
    var b := Bar(s, 0);
    if b < |s| {
      FlatParse(s[..b]);
      FlatParseAlts(s[b + 1..]);
      assert s == s[..b] + [Ch('|')] + s[b + 1..];
    } else {
      FlatParse(s);
    }
  }

  // ---------------------------------------------------------------- scanning facts

  lemma CloseCons(s: seq<Tok>, depth: nat)
    requires s != []
    ensures Close(s, depth) == if s[0] == Ch('}') && depth == 0 then 0 else 1 + Close(s[1..], Next(s[0], depth))
  {
  }

  lemma BarCons(s: seq<Tok>, depth: nat)
    requires s != [] && depth > 0
    ensures Bar(s, depth) == 1 + Bar(s[1..], Next(s[0], depth))
  {
  }

  /** Climbing out `a + b + 1` levels is climbing out `a`, then `b` more. */
  lemma {:induction false} CloseSplit(s: seq<Tok>, a: nat, b: nat)
    requires Close(s, a) < |s|
    ensures Close(s, a + b + 1) == Close(s, a) + 1 + Close(s[Close(s, a) + 1..], b)
  {
    hide Close;
    CloseCons(s, a);
    CloseCons(s, a + b + 1);
    if !(s[0] == Ch('}') && a == 0) {
      var t, a' := s[1..], Next(s[0], a);
      CloseSplit(t, a', b);
      assert t[Close(t, a') + 1..] == s[Close(t, a') + 2..];
    }
  }

  lemma {:induction false} CloseNone(s: seq<Tok>, a: nat, b: nat)
    requires Close(s, a) == |s|
    ensures Close(s, a + b + 1) == |s|
  {
    if s != [] {
      CloseNone(s[1..], Next(s[0], a), b);
    }
  }

  lemma {:induction false} CloseBal(s: seq<Tok>, depth: nat)
    requires Close(s, depth) < |s|
    ensures Bal(s[..Close(s, depth)], depth)
  {
    var k := Close(s, depth);
    if k > 0 {
      var depth' := Next(s[0], depth);
      CloseBal(s[1..], depth');
      assert s[..k][1..] == s[1..][..k - 1];
    }
  }

  /** A balanced stretch leaves the surrounding group still open. */
  lemma {:induction false} BalClose(s: seq<Tok>, depth: nat, rest: seq<Tok>)
    requires Bal(s, depth)
    ensures Close(s + [Ch('}')] + rest, depth) == |s|
  {
    if s != [] {
      var depth' := Next(s[0], depth);
      BalClose(s[1..], depth', rest);
      assert (s + [Ch('}')] + rest)[1..] == s[1..] + [Ch('}')] + rest;
    }
  }

  lemma {:induction false} BalSplit(s: seq<Tok>, a: nat, b: nat)
    requires Bal(s, a + b + 1)
    ensures var k := Close(s, a); k < |s| && Bal(s[k + 1..], b)
  {
    if !(s[0] == Ch('}') && a == 0) {
      var a' := Next(s[0], a);
      var k := Close(s[1..], a');
      BalSplit(s[1..], a', b);
      assert s[1..][k + 1..] == s[k + 2..];
    }
  }

  lemma {:induction false} BalBar(s: seq<Tok>, depth: nat)
    requires Bal(s, depth) && Bar(s, depth) < |s|
    ensures var b := Bar(s, depth);
            Bal(s[..b], depth) && Bar(s[..b], depth) == b && Bal(s[b + 1..], 0)
  {
    var b := Bar(s, depth);
    if b > 0 {
      var depth' := Next(s[0], depth);
      BalBar(s[1..], depth');
      assert s[..b][1..] == s[1..][..b - 1] && s[1..][b..] == s[b + 1..];
    }
  }

  /** A pipe outside every group stays outside once a group is skipped. */
  lemma {:induction false} BarSplit(s: seq<Tok>, a: nat, b: nat)
    requires Close(s, a) < |s|
    ensures Bar(s, a + b + 1) == Close(s, a) + 1 + Bar(s[Close(s, a) + 1..], b)
  {
    hide Close, Bar;
    CloseCons(s, a);
    BarCons(s, a + b + 1);
    if !(s[0] == Ch('}') && a == 0) {
      var t, a' := s[1..], Next(s[0], a);
      BarSplit(t, a', b);
      assert t[Close(t, a') + 1..] == s[Close(t, a') + 2..];
    }
  }

  // ---------------------------------------------------------------- the parse is well-formed

  lemma {:induction false} ParseInner(s: seq<Tok>)
    requires Bal(s, 0) && Bar(s, 0) == |s|
    ensures Inner(Parse(s))
    decreases |s|, 0
  {
    if s != [] {
      var t := s[1..];
      if s[0] == Ch('{') {
        BalSplit(t, 0, 0);
        var k := Close(t, 0);
        CloseBal(t, 0);
        BarSplit(t, 0, 0);
        ParseInnerAlts(t[..k]);
        ParseInner(t[k + 1..]);
      } else {
        ParseInner(t);
      }
    }
  }

  lemma {:induction false} ParseInnerAlts(s: seq<Tok>)
    requires Bal(s, 0)
    ensures InnerAlts(ParseAlts(s))
    decreases |s|, 1
  {
    var b := Bar(s, 0);
    if b < |s| {
      BalBar(s, 0);
      ParseInner(s[..b]);
      ParseInnerAlts(s[b + 1..]);
    } else {
      ParseInner(s);
    }
  }

  /** Any text at all is a well-formed template, balanced or not. */
  lemma {:induction false} ParseWf(s: seq<Tok>, open: bool)
    requires open ==> Close(s, 0) == |s|
    ensures Wf(Parse(s), open)
    decreases |s|
  {
    hide Bal, ParseAlts, InnerAlts;
    if s != [] {
      var t := s[1..];
      var k := Close(t, 0);
      if s[0] == Ch('{') && k < |t| {
        CloseBal(t, 0);
        ParseInnerAlts(t[..k]);
        CloseSplit(t, 0, 0);
        ParseWf(t[k + 1..], open);
      } else {
        ParseWf(t, open || s[0] == Ch('{'));
      }
    }
  }

  // ---------------------------------------------------------------- parsing after printing

  lemma {:induction false} BalConcat(x: seq<Tok>, y: seq<Tok>, depth: nat)
    requires Bal(x, depth) && Bal(y, 0)
    ensures Bal(x + y, depth)
  {
    if x == [] {
      assert x + y == y;
    } else {
      var depth' := Next(x[0], depth);
      BalConcat(x[1..], y, depth');
      assert (x + y)[1..] == x[1..] + y;
    }
  }

  lemma {:induction false} BalGroup(x: seq<Tok>, y: seq<Tok>, depth: nat)
    requires Bal(x, depth) && Bal(y, 0)
    ensures Bal(x + [Ch('}')] + y, depth + 1)
  {
    var s := x + [Ch('}')] + y;
    if x == [] {
      assert s[1..] == y;
    } else {
      var depth' := Next(x[0], depth);
      BalGroup(x[1..], y, depth');
      assert s[1..] == x[1..] + [Ch('}')] + y;
    }
  }

  lemma {:induction false} InnerBal(d: Doc)
    requires Inner(d)
    ensures Bal(Flat(d), 0)
  {
    hide Flat, FlatAlts;
    match d
    case End => FlatEnd();
    case Lit(t, rest) =>
      InnerBal(rest);
      FlatLit(t, rest);
    case Group(a, rest) =>
      InnerBalAlts(a);
      InnerBal(rest);
      BalGroup(FlatAlts(a), Flat(rest), 0);
      FlatGroup(a, rest);
  }

  lemma {:induction false} InnerBalAlts(a: Alts)
    requires InnerAlts(a)
    ensures Bal(FlatAlts(a), 0)
  {
    match a
    case One(d) => InnerBal(d);
    case More(d, tail) =>
      InnerBal(d);
      InnerBalAlts(tail);
      var y := [Ch('|')] + FlatAlts(tail);
      assert y[1..] == FlatAlts(tail);
      BalConcat(Flat(d), y, 0);
      assert FlatAlts(a) == Flat(d) + y;
  }

  lemma BarOpen(s: seq<Tok>)
    requires s != [] && s[0] == Ch('{')
    ensures Bar(s, 0) == 1 + Bar(s[1..], 1)
  {
  }

  /** A group is skipped as a whole when looking for a separator. */
  lemma BarSkip(x: seq<Tok>, y: seq<Tok>)
    requires Bal(x, 0)
    ensures Bar([Ch('{')] + x + [Ch('}')] + y, 0) == |x| + 2 + Bar(y, 0)
  {
    hide Close, Bal, Bar;
    Bracketed(Ch('{'), x, Ch('}'), y);
    Around(x, Ch('}'), y);
    BalClose(x, 0, y);
    BarSplit(x + [Ch('}')] + y, 0, 0);
    BarOpen([Ch('{')] + x + [Ch('}')] + y);
  }

  /** Inside a group the first pipe outside a subgroup is the first separator. */
  lemma {:induction false} InnerBar(d: Doc, rest: seq<Tok>)
    requires Inner(d)
    ensures Bar(Flat(d) + rest, 0) == |Flat(d)| + Bar(rest, 0)
  {
    match d
    case End =>
      assert Flat(d) + rest == rest;
    case Lit(t, more) =>
      InnerBar(more, rest);
      assert (Flat(d) + rest)[1..] == Flat(more) + rest;
    case Group(a, more) =>
      InnerBar(more, rest);
      InnerBalAlts(a);
      InnerBarGroup(a, more, rest);
  }

  lemma InnerBarGroup(a: Alts, more: Doc, rest: seq<Tok>)
    requires Bal(FlatAlts(a), 0)
    requires Bar(Flat(more) + rest, 0) == |Flat(more)| + Bar(rest, 0)
    ensures Bar(Flat(Group(a, more)) + rest, 0) == |Flat(Group(a, more))| + Bar(rest, 0)
  {
    hide Bar, Bal, FlatAlts;
    var x, y := FlatAlts(a), Flat(more);
    BarSkip(x, y + rest);
    Assoc([Ch('{')] + x + [Ch('}')], y, rest);
    Bracketed(Ch('{'), x, Ch('}'), y);
  }

  lemma GroupShape(a: Alts, rest: Doc)
    requires Bal(FlatAlts(a), 0)
    ensures var s := Flat(Group(a, rest)); var k := |FlatAlts(a)|;
            |s| > 0 && s[0] == Ch('{') && Close(s[1..], 0) == k < |s| - 1
            && s[1..][..k] == FlatAlts(a) && s[1..][k + 1..] == Flat(rest)
  {
    hide Bal, Close;
    var s := Flat(Group(a, rest));
    BalClose(FlatAlts(a), 0, Flat(rest));
    assert s[1..] == FlatAlts(a) + [Ch('}')] + Flat(rest);
  }

  /** Once a stray `{` has been seen, no stray `}` follows. */
  lemma {:induction false} OpenNeverCloses(d: Doc)
    requires Wf(d, true)
    ensures Close(Flat(d), 0) == |Flat(d)|
  {
    hide Flat, FlatAlts, Bal, Inner, InnerAlts;
    match d
    case End => FlatEnd();
    case Lit(t, rest) =>
      OpenNeverCloses(rest);
      FlatLit(t, rest);
      CloseNone(Flat(d)[1..], 0, 0);
    case Group(a, rest) =>
      OpenNeverCloses(rest);
      InnerBalAlts(a);
      GroupShape(a, rest);
      CloseSplit(Flat(d)[1..], 0, 0);
  }

  /** Parsing inverts printing, so the tree of a template is unique. */
  lemma {:induction false} ParseFlat(d: Doc, open: bool)
    requires Wf(d, open)
    ensures Parse(Flat(d)) == d
    decreases d
  {
    hide Close, Bal, FlatAlts, ParseAlts, Inner, InnerAlts;
    match d
    case End =>
    case Lit(t, rest) =>
      ParseFlat(rest, open || t == Ch('{'));
      assert Flat(d)[0] == t && Flat(d)[1..] == Flat(rest);
      if t == Ch('{') {
        OpenNeverCloses(rest);
      }
    case Group(a, rest) =>
      ParseFlat(rest, open);
      ParseFlatAlts(a);
      InnerBalAlts(a);
      GroupShape(a, rest);
  }

  lemma {:induction false} ParseFlatAlts(a: Alts)
    requires InnerAlts(a)
    ensures ParseAlts(FlatAlts(a)) == a
    decreases a
  {
    hide Parse, Flat, Inner;
    match a
    case One(d) =>
      InnerWf(d);
      ParseFlat(d, true);
      InnerBar(d, []);
      assert Flat(d) + [] == Flat(d);
    case More(d, tail) =>
      InnerWf(d);
      ParseFlat(d, true);
      ParseFlatAlts(tail);
      InnerBar(d, [Ch('|')] + FlatAlts(tail));
      MoreShape(d, tail);
  }

  lemma MoreShape(d: Doc, tail: Alts)
    ensures var s := FlatAlts(More(d, tail)); var b := |Flat(d)|;
            b < |s| && s == Flat(d) + ([Ch('|')] + FlatAlts(tail))
            && s[..b] == Flat(d) && s[b + 1..] == FlatAlts(tail)
  {
    hide Flat;
    Around(Flat(d), Ch('|'), FlatAlts(tail));
  }
}
