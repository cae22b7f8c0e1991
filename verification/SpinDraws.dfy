/** Which option `spin` takes: every choice has a draw of its own, and the part it falls into decides. */
module SpinDraws {
  import opened Seqs
  import opened Text
  import opened Template
  import opened Document
  import opened Rewriting
  import opened Spintax
  import opened SpinMeaning

  /** `r` lies in part `k` of [0, 1) cut into `n` equal parts. */
  predicate InPart(r: real, k: nat, n: nat)
    requires n > 0
  {
    k as real / n as real <= r < (k + 1) as real / n as real
  }

  lemma Scaled(r: real, k: int, n: nat)
    requires n > 0
    ensures k as real / n as real <= r <==> k as real <= r * n as real
  {
    var q := k as real / n as real;
    assert q * n as real == k as real;
    if q <= r {
      assert q * n as real <= r * n as real;
    } else {
      assert r * n as real < q * n as real;
    }
  }

  /** A draw picks option `k` exactly when it falls into part `k`. */
  lemma PickExactly(r: real, k: nat, n: nat)
    requires k < n && 0.0 <= r < 1.0
    ensures Pick(r, n) == k <==> InPart(r, k, n)
  {
    Scaled(r, k, n);
    Scaled(r, k + 1, n);
  }

  // ---------------------------------------------------------------- on any tree

  /** The draws of the alternatives before number `k`. */
  function DrawsBefore(a: Alts, k: nat): nat
    requires k < Count(a)
  {
    if k == 0 then 0 else Draws(a.d) + DrawsBefore(a.tail, k - 1)
  }

  lemma {:induction false} AltRendered(a: Alts, random: nat -> real, i: nat, k: nat)
    requires IsRandom(random) && k < Count(a)
    ensures RenderAlts(a, random, i)[k] == Render(Nth(a, k), random, i + DrawsBefore(a, k))
  {
    if k > 0 {
      AltRendered(a.tail, random, i + Draws(a.d), k - 1);
    }
  }

  /**
   * A group draws once everything inside it has drawn, and takes the alternative whose part the draw
   * falls into; a group of one alternative draws nothing.
   */
  lemma GroupTakes(a: Alts, rest: Doc, random: nat -> real, i: nat, k: nat)
    requires IsRandom(random) && k < Count(a)
    requires Count(a) > 1 ==> InPart(random(i + DrawsAlts(a)), k, Count(a))
    ensures Render(Group(a, rest), random, i)
            == Render(Nth(a, k), random, i + DrawsBefore(a, k))
               + Render(rest, random, i + DrawsAlts(a) + if Count(a) > 1 then 1 else 0)
  {
    hide Render, RenderAlts, Pick, InPart, Draws, DrawsAlts;
    RenderGroup(a, rest, random, i);
    AltRendered(a, random, i, k);
    if Count(a) > 1 {
      PickExactly(random(i + DrawsAlts(a)), k, Count(a));
    }
  }

  // ---------------------------------------------------------------- on the text of a template

  /** Text without braces, a merge field, or a group of plain options. */
  datatype Piece =
    | Copy(c: char)
    | Field(before: string, name: string, after: string)
    | Choice(first: string, more: seq<string>)

  predicate PlainOption(s: string) {
    Plain(s) && '|' !in s
  }

  predicate WfPiece(p: Piece) {
    match p
    case Copy(c) => !IsBrace(c)
    case Field(before, name, after) =>
      All(before, IsSpace) && All(name, IsNameChar) && name != "" && All(after, IsSpace)
    case Choice(first, more) => PlainOption(first) && forall o :: o in more ==> PlainOption(o)
  }

  function Tail(more: seq<string>): string {
    if more == [] then "" else "|" + (more[0] + Tail(more[1..]))
  }

  function Show(p: Piece): string {
    match p
    case Copy(c) => [c]
    case Field(before, name, after) => Braced(before, name, after)
    case Choice(first, more) => "{" + ((first + Tail(more)) + "}")
  }

  function Write(ps: seq<Piece>): string {
    if ps == [] then "" else Show(ps[0]) + Write(ps[1..])
  }

  /** The piece with option `k` taken. */
  function Taken(p: Piece, k: nat): string
    requires p.Choice? ==> k <= |p.more|
  {
    if p.Choice? then ([p.first] + p.more)[k] else Show(p)
  }

  /** How many draws a piece takes: one for a choice between two options or more. */
  function DrawsOf(p: Piece): nat {
    if p.Choice? && p.more != [] then 1 else 0
  }

  /** `ks` names, piece by piece, the option whose part the draw of that choice falls into. */
  predicate Drawn(ps: seq<Piece>, ks: seq<nat>, random: nat -> real, i: nat)
    decreases |ps|
  {
    && |ks| == |ps|
    && (ps == [] ||
        (&& (ps[0].Choice? ==> ks[0] <= |ps[0].more|)
         && (DrawsOf(ps[0]) == 1 ==> InPart(random(i), ks[0], |ps[0].more| + 1))
         && Drawn(ps[1..], ks[1..], random, i + DrawsOf(ps[0]))))
  }

  function TakenAll(ps: seq<Piece>, ks: seq<nat>): string
    requires |ks| == |ps| && forall j :: 0 <= j < |ps| && ps[j].Choice? ==> ks[j] <= |ps[j].more|
  {
    if ps == [] then "" else Taken(ps[0], ks[0]) + TakenAll(ps[1..], ks[1..])
  }

  lemma {:induction false} DrawnInRange(ps: seq<Piece>, ks: seq<nat>, random: nat -> real, i: nat)
    requires Drawn(ps, ks, random, i)
    ensures |ks| == |ps| && forall j :: 0 <= j < |ps| && ps[j].Choice? ==> ks[j] <= |ps[j].more|
  {
    hide InPart;
    if ps != [] {
      DrawnInRange(ps[1..], ks[1..], random, i + DrawsOf(ps[0]));
      forall j | 0 <= j < |ps| && ps[j].Choice? ensures ks[j] <= |ps[j].more| {
        if j > 0 {
          assert ps[1..][j - 1] == ps[j] && ks[1..][j - 1] == ks[j];
        }
      }
    }
  }

  /** Every source draws some option for every choice. */
  lemma {:induction false} SomeDrawn(ps: seq<Piece>, random: nat -> real, i: nat) returns (ks: seq<nat>)
    requires IsRandom(random)
    ensures Drawn(ps, ks, random, i)
  {
    hide InPart;
    if ps == [] {
      ks := [];
    } else {
      var k := if DrawsOf(ps[0]) == 1 then Pick(random(i), |ps[0].more| + 1) else 0;
      if DrawsOf(ps[0]) == 1 {
        PickExactly(random(i), k, |ps[0].more| + 1);
      }
      var rest := SomeDrawn(ps[1..], random, i + DrawsOf(ps[0]));
      ks := [k] + rest;
      assert ks[1..] == rest;
    }
  }

  // ---------------------------------------------------------------- the tree of that text

  function Word(s: string): Doc {
    if s == "" then End else Lit(Ch(s[0]), Word(s[1..]))
  }

  function AltsOf(first: string, more: seq<string>): Alts
    decreases |more|
  {
    if more == [] then One(Word(first)) else More(Word(first), AltsOf(more[0], more[1..]))
  }

  function DocOf(ps: seq<Piece>, n: nat): Doc {
    if ps == [] then End
    else match ps[0]
      case Copy(c) => Lit(Ch(c), DocOf(ps[1..], n))
      case Field(_, _, _) => Lit(Hole(n), DocOf(ps[1..], n + 1))
      case Choice(first, more) => Group(AltsOf(first, more), DocOf(ps[1..], n))
  }

  function CharsOf(s: string): seq<Tok> {
    if s == "" then [] else [Ch(s[0])] + CharsOf(s[1..])
  }

  lemma CharsOfCons(c: char, s: string)
    ensures CharsOf([c] + s) == [Ch(c)] + CharsOf(s)
  {
    assert ([c] + s)[1..] == s;
  }

  lemma {:induction false} CharsOfConcat(a: string, b: string)
    ensures CharsOf(a + b) == CharsOf(a) + CharsOf(b)
  {
    if a == "" {
      assert a + b == b;
    } else {
      hide CharsOf;
      CharsOfConcat(a[1..], b);
      Uncons(a);
      Assoc([a[0]], a[1..], b);
      CharsOfCons(a[0], a[1..]);
      CharsOfCons(a[0], a[1..] + b);
      Assoc([Ch(a[0])], CharsOf(a[1..]), CharsOf(b));
    }
  }

  lemma {:induction false} WordShape(s: string)
    ensures Flat(Word(s)) == CharsOf(s) && !HasGroup(Word(s)) && Draws(Word(s)) == 0
    ensures PlainOption(s) ==> Inner(Word(s))
  {
    if s != "" {
      WordShape(s[1..]);
    }
  }

  lemma {:induction false} AltsShape(first: string, more: seq<string>)
    requires PlainOption(first) && forall o :: o in more ==> PlainOption(o)
    ensures var a := AltsOf(first, more);
            FlatAlts(a) == CharsOf(first + Tail(more)) && InnerAlts(a) && Count(a) == 1 + |more| && DrawsAlts(a) == 0
    decreases |more|
  {
    hide Word, CharsOf;
    WordShape(first);
    if more == [] {
      assert first + "" == first;
    } else {
      AltsShape(more[0], more[1..]);
      CharsOfConcat(first, Tail(more));
      CharsOfCons('|', more[0] + Tail(more[1..]));
      Assoc(CharsOf(first), [Ch('|')], CharsOf(more[0] + Tail(more[1..])));
    }
  }

  lemma {:induction false} AltTaken(first: string, more: seq<string>, k: nat)
    requires k <= |more|
    ensures var a := AltsOf(first, more);
            k < Count(a) && Nth(a, k) == Word(([first] + more)[k]) && DrawsBefore(a, k) == 0
    decreases |more|
  {
    WordShape(first);
    if k > 0 {
      AltTaken(more[0], more[1..], k - 1);
      assert [more[0]] + more[1..] == more;
    }
  }

  lemma TokensCopy(c: char, rest: string, n: nat)
    requires c != '{'
    ensures Tokens([c] + rest, n) == [Ch(c)] + Tokens(rest, n) && Fields([c] + rest) == Fields(rest)
  {
    assert ([c] + rest)[1..] == rest;
  }

  /** Text without an opening brace is read character by character. */
  lemma {:induction false} TokensPlain(x: string, y: string, n: nat)
    requires '{' !in x
    ensures Tokens(x + y, n) == CharsOf(x) + Tokens(y, n)
    ensures Fields(x + y) == Fields(y)
  {
    hide Tokens, Fields;
    if x == "" {
      assert x + y == y;
    } else {
      TokensPlain(x[1..], y, n);
      TokensCopy(x[0], x[1..] + y, n);
      Assoc([x[0]], x[1..], y);
      Uncons(x);
      Assoc([Ch(x[0])], CharsOf(x[1..]), Tokens(y, n));
    }
  }

  /** A merge field is stashed as it stands, whatever follows. */
  lemma TokensField(before: string, name: string, after: string, rest: string, n: nat)
    requires All(before, IsSpace) && All(name, IsNameChar) && name != "" && All(after, IsSpace)
    ensures var f := Braced(before, name, after);
            Tokens(f + rest, n) == [Hole(n)] + Tokens(rest, n + 1) && Fields(f + rest) == [f] + Fields(rest)
  {
    hide PlaceholderLen, Run;
    var f := Braced(before, name, after);
    PlaceholderMatches(before, name, after, rest);
    Parts(f, rest);
  }

  lemma {:induction false} TailPlain(more: seq<string>)
    requires forall o :: o in more ==> PlainOption(o)
    ensures Plain(Tail(more))
  {
    if more != [] {
      assert PlainOption(more[0]);
      TailPlain(more[1..]);
    }
  }

  lemma TokensChoice(p: Piece, rest: string, n: nat)
    requires p.Choice? && WfPiece(p)
    ensures Tokens(Show(p) + rest, n) == [Ch('{')] + CharsOf(p.first + Tail(p.more)) + [Ch('}')] + Tokens(rest, n)
    ensures Fields(Show(p) + rest) == Fields(rest)
  {
    hide Tail;
    TailPlain(p.more);
    var inside := p.first + Tail(p.more);
    var x := inside + "}";
    TokensOpen(x, rest, n);
    CharsOfConcat(inside, "}");
    assert CharsOf("}") == [Ch('}')];
    Assoc([Ch('{')], CharsOf(inside), [Ch('}')]);
  }

  lemma TokensOpen(x: string, rest: string, n: nat)
    requires x != "" && '{' !in x
    ensures Tokens(("{" + x) + rest, n) == ([Ch('{')] + CharsOf(x)) + Tokens(rest, n)
    ensures Fields(("{" + x) + rest) == Fields(rest)
  {
    var s := ("{" + x) + rest;
    assert s[1..] == x + rest;
    assert s[1] == x[0];
    TokensPlain(x, rest, n);
    Assoc([Ch('{')], CharsOf(x), Tokens(rest, n));
  }

  /** The tree of such a text. */
  lemma {:induction false} TreeOfPieces(ps: seq<Piece>, n: nat)
    requires forall p :: p in ps ==> WfPiece(p)
    ensures Tokens(Write(ps), n) == Flat(DocOf(ps, n)) && Wf(DocOf(ps, n), false)
  {
    hide Show, CharsOf, Tokens, Fields, AltsOf, Tail;
    if ps == [] {
      NoPieces(n);
    } else {
      var p, rest := ps[0], ps[1..];
      assert WfPiece(p);
      match p
      case Copy(c) =>
        TreeOfPieces(rest, n);
        ShowCopy(c);
        TokensCopy(c, Write(rest), n);
      case Field(before, name, after) =>
        TreeOfPieces(rest, n + 1);
        ShowField(p);
        TokensField(before, name, after, Write(rest), n);
      case Choice(first, more) =>
        TreeOfPieces(rest, n);
        TokensChoice(p, Write(rest), n);
        AltsShape(first, more);
    }
  }

  lemma ShowCopy(c: char)
    ensures Show(Copy(c)) == [c]
  {
  }

  lemma ShowField(p: Piece)
    requires p.Field?
    ensures Show(p) == Braced(p.before, p.name, p.after)
  {
  }

  // ---------------------------------------------------------------- what is drawn is what is sent

  lemma {:induction false} ExpandChars(s: string, rest: seq<Tok>, fields: seq<string>)
    ensures Expand(CharsOf(s) + rest, fields) == s + Expand(rest, fields)
  {
    hide Expand;
    if s == "" {
      assert CharsOf(s) + rest == rest;
    } else {
      ExpandChars(s[1..], rest, fields);
      Assoc([Ch(s[0])], CharsOf(s[1..]), rest);
      ExpandCons(Ch(s[0]), CharsOf(s[1..]) + rest, fields);
      Assoc([s[0]], s[1..], Expand(rest, fields));
      Uncons(s);
    }
  }

  lemma ChoiceRendered(p: Piece, rest: Doc, random: nat -> real, i: nat, k: nat)
    requires p.Choice? && WfPiece(p) && IsRandom(random) && k <= |p.more|
    requires DrawsOf(p) == 1 ==> InPart(random(i), k, |p.more| + 1)
    ensures Render(Group(AltsOf(p.first, p.more), rest), random, i)
            == CharsOf(Taken(p, k)) + Render(rest, random, i + DrawsOf(p))
  {
    hide Render, AltsOf, Word, CharsOf, InPart, Draws, DrawsAlts, Flat, Nth, Count, DrawsBefore;
    AltsShape(p.first, p.more);
    AltTaken(p.first, p.more, k);
    GroupTakes(AltsOf(p.first, p.more), rest, random, i, k);
    WordShape(Taken(p, k));
    RenderFlat(Word(Taken(p, k)), End, random, i);
  }

  lemma {:induction false} PiecesRendered(ps: seq<Piece>, ks: seq<nat>, n: nat, random: nat -> real, i: nat,
                                          fields: seq<string>)
    requires (forall p :: p in ps ==> WfPiece(p)) && IsRandom(random) && Drawn(ps, ks, random, i)
    requires |ks| == |ps| && forall j :: 0 <= j < |ps| && ps[j].Choice? ==> ks[j] <= |ps[j].more|
    requires n <= |fields| && fields[n..] == Fields(Write(ps))
    ensures Expand(Render(DocOf(ps, n), random, i), fields) == TakenAll(ps, ks)
  {
    hide Show, Expand, Tokens, Fields, CharsOf, AltsOf, InPart;
    if ps == [] {
      ExpandNil(fields);
    } else {
      var p, rest, k := ps[0], ps[1..], ks[0];
      assert WfPiece(p);
      match p
      case Copy(c) =>
        ShowCopy(c);
        TokensCopy(c, Write(rest), n);
        PiecesRendered(rest, ks[1..], n, random, i, fields);
        ExpandCons(Ch(c), Render(DocOf(rest, n), random, i), fields);
      case Field(before, name, after) =>
        ShowField(p);
        TokensField(before, name, after, Write(rest), n);
        assert fields[n] == fields[n..][0] && fields[n + 1..] == fields[n..][1..];
        PiecesRendered(rest, ks[1..], n + 1, random, i, fields);
        ExpandCons(Hole(n), Render(DocOf(rest, n + 1), random, i), fields);
      case Choice(first, more) =>
        TokensChoice(p, Write(rest), n);
        PiecesRendered(rest, ks[1..], n, random, i + DrawsOf(p), fields);
        ChoiceRendered(p, DocOf(rest, n), random, i, k);
        ExpandChars(Taken(p, k), Render(DocOf(rest, n), random, i + DrawsOf(p)), fields);
    }
  }

  /**
   * In a template of text, merge fields and groups of plain options, the m-th choice takes the option
   * whose part the m-th draw falls into, and everything else is sent as it stands.
   */
  lemma SpinTakes(ps: seq<Piece>, ks: seq<nat>, random: nat -> real)
    requires (forall p :: p in ps ==> WfPiece(p)) && IsRandom(random) && Drawn(ps, ks, random, 0)
    requires |Write(ps)| <= 20_000 && NUL !in Write(ps)
    ensures |ks| == |ps| && forall j :: 0 <= j < |ps| && ps[j].Choice? ==> ks[j] <= |ps[j].more|
    ensures Spun(Write(ps), random) == TakenAll(ps, ks)
  {
    hide Spun, Render, Expand, Fields, Write, DocOf, TakenAll, Drawn;
    DrawnInRange(ps, ks, random, 0);
    TreeOfPieces(ps, 0);
    TreeIsUnique(Write(ps), DocOf(ps, 0));
    SpunIsExpansion(Write(ps), random);
    assert Fields(Write(ps))[0..] == Fields(Write(ps));
    PiecesRendered(ps, ks, 0, random, 0, Fields(Write(ps)));
  }

  /** One group: the option sent is number `k` when the first draw lies in [k/n, (k+1)/n). */
  lemma SpinOneGroup(first: string, more: seq<string>, k: nat, random: nat -> real)
    requires PlainOption(first) && more != [] && (forall o :: o in more ==> PlainOption(o)) && k <= |more|
    requires IsRandom(random) && InPart(random(0), k, |more| + 1)
    requires var text := "{" + ((first + Tail(more)) + "}"); |text| <= 20_000 && NUL !in text
    ensures Spun("{" + ((first + Tail(more)) + "}"), random) == ([first] + more)[k]
  {
    hide InPart, Spun, Tail;
    var p := Choice(first, more);
    assert Drawn([p], [k], random, 0) by { assert Drawn([], [], random, 1); }
    assert Write([p]) == Show(p) by { assert Write([]) == "" && Show(p) + "" == Show(p); }
    SpinTakes([p], [k], random);
    assert TakenAll([p], [k]) == Taken(p, k) by {
      assert TakenAll([], []) == "" && Taken(p, k) + "" == Taken(p, k);
    }
  }
}
