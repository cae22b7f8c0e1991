/** What `spin` promises: its results are exactly the renderings of the template tree. */
module SpinMeaning {
  import opened Text
  import opened Template
  import opened Document
  import opened Parser
  import opened Rewriting
  import opened Spintax

  /** `out` takes one alternative per group of `text` and keeps every placeholder verbatim. */
  ghost predicate IsRendering(text: string, out: string) {
    exists v :: Denotes(TreeOf(text), v) && out == Expand(v, Fields(text))
  }

  // ---------------------------------------------------------------- nothing is invented

  lemma {:induction false} RenderingUsesTemplate(d: Doc, v: seq<Tok>)
    requires Denotes(d, v)
    ensures forall t :: t in v ==> t in Flat(d)
    decreases d
  {
    match d
    case End =>
    case Lit(t, rest) =>
      RenderingUsesTemplate(rest, v[1..]);
      assert v == [t] + v[1..];
    case Group(a, rest) =>
      var n :| 0 <= n <= |v| && DenotesAlt(a, v[..n]) && Denotes(rest, v[n..]);
      AltUsesTemplate(a, v[..n]);
      RenderingUsesTemplate(rest, v[n..]);
      assert v == v[..n] + v[n..];
  }

  lemma {:induction false} AltUsesTemplate(a: Alts, v: seq<Tok>)
    requires DenotesAlt(a, v)
    ensures forall t :: t in v ==> t in FlatAlts(a)
    decreases a
  {
    match a
    case One(d) => RenderingUsesTemplate(d, v);
    case More(d, tail) =>
      if Denotes(d, v) {
        RenderingUsesTemplate(d, v);
      } else {
        AltUsesTemplate(tail, v);
      }
  }

  lemma {:induction false} GroupNeedsBrace(d: Doc)
    requires HasGroup(d)
    ensures Ch('{') in Flat(d)
  {
    if d.Lit? {
      GroupNeedsBrace(d.rest);
    }
  }

  /** A well-formed tree with the text's pieces is the text's tree. */
  lemma TreeIsUnique(text: string, d: Doc)
    requires Wf(d, false) && Flat(d) == Tokens(text, 0)
    ensures d == TreeOf(text)
  {
    ParseFlat(d, false);
  }

  // ---------------------------------------------------------------- the theorem

  /** Up to the length limit, `spin` expands a rendering of the tree. */
  lemma SpunIsExpansion(text: string, random: nat -> real)
    requires IsRandom(random) && |text| <= 20_000 && NUL !in text
    ensures Spun(text, random) == Expand(Render(TreeOf(text), random, 0), Fields(text))
  {
    var d := TreeOf(text);
    FlatParse(Tokens(text, 0));
    if '{' !in text {
      TokensKeepChars(text, 0, '{');
      if HasGroup(d) {
        GroupNeedsBrace(d);
      }
      RenderFlat(d, End, random, 0);
      TokensExpand(text, 0, Fields(text));
    } else {
      RenderDenotes(d, random, 0);
      RenderingUsesTemplate(d, Render(d, random, 0));
      TokensKeepChars(text, 0, NUL);
      RestoreStr(Render(d, random, 0), Fields(text));
    }
  }

  /** The possible results of `spin` are the renderings of the template, no more and no fewer. */
  lemma SpinIsRendering(text: string, out: string)
    requires |text| <= 20_000 && NUL !in text
    ensures IsRendering(text, out) <==> exists random :: IsRandom(random) && Spun(text, random) == out
  {
    hide Spun, Render, Denotes, Expand, Parse, Tokens, Fields;
    if IsRendering(text, out) {
      var v :| Denotes(TreeOf(text), v) && out == Expand(v, Fields(text));
      var random := RenderReaches(TreeOf(text), v, 0);
      SpunIsExpansion(text, random);
    }
    if random :| IsRandom(random) && Spun(text, random) == out {
      SpunIsExpansion(text, random);
      RenderDenotes(TreeOf(text), random, 0);
    }
  }

  /** A text without groups comes back unchanged, stray braces and placeholders included. */
  lemma SpinWithoutGroups(text: string, random: nat -> real)
    requires IsRandom(random) && NUL !in text && !HasGroup(TreeOf(text))
    ensures Spun(text, random) == text
  {
    if |text| <= MAX_LENGTH {
      SpunIsExpansion(text, random);
      RenderFlat(TreeOf(text), End, random, 0);
      FlatParse(Tokens(text, 0));
      TokensExpand(text, 0, Fields(text));
    }
  }

  /** The restriction to copy without NUL is needed: a literal sentinel is swallowed. */
  lemma NulBreaksSpin(random: nat -> real)
    requires IsRandom(random)
    ensures var text := ['{', NUL, 'P', 'H', '0', NUL]; Spun(text, random) == "{" && !IsRendering(text, "{")
  {
    var text := ['{', NUL, 'P', 'H', '0', NUL];
    var tail := [NUL, 'P', 'H', '0', NUL];
    PlainTokens(tail, 0);
    var ts := Tokens(text, 0);
    assert text[1..] == tail;
    assert PlaceholderLen(text) == 0;
    assert Fields(text) == [] by { PlainTokens(tail, 0); }
    assert ts == [Ch('{')] + Tokens(tail, 0);
    var d := TreeOf(text);
    FlatParse(ts);
    TokensExpand(text, 0, Fields(text));
    assert Ch('}') !in ts by { TokensKeepChars(text, 0, '}'); }
    if HasGroup(d) {
      GroupNeedsClose(d);
    }
    RenderFlat(d, End, random, 0);
    assert Str(ts) == text by { StrCons(Ch('{'), Tokens(tail, 0)); }
    SentinelSwallowed();
    forall v | Denotes(d, v) ensures Expand(v, Fields(text)) != "{" {
      OnlyRendering(d, v);
    }
  }

  lemma SentinelSwallowed()
    ensures Restore(['{', NUL, 'P', 'H', '0', NUL], []) == "{"
  {
    var tail := [NUL, 'P', 'H', '0', NUL];
    var text := ['{', NUL, 'P', 'H', '0', NUL];
    assert text[1..] == tail;
    assert tail[3..] == "0" + [NUL];
    RunEnds("0", [NUL], IsDigit);
    assert SentinelLen(tail) == 5;
    assert tail[5..] == "";
    assert Restore(tail, []) == "";
    assert SentinelLen(text) == 0;
  }

  lemma {:induction false} PlainTokens(s: string, n: nat)
    requires '{' !in s
    ensures Fields(s) == [] && Str(Tokens(s, n)) == s
  {
    if s != "" {
      PlainTokens(s[1..], n);
      StrCons(Ch(s[0]), Tokens(s[1..], n));
    }
  }

  lemma {:induction false} GroupNeedsClose(d: Doc)
    requires HasGroup(d)
    ensures Ch('}') in Flat(d)
  {
    if d.Lit? {
      GroupNeedsClose(d.rest);
    }
  }

  /** A tree without groups has one rendering. */
  lemma {:induction false} OnlyRendering(d: Doc, v: seq<Tok>)
    requires !HasGroup(d) && Denotes(d, v)
    ensures v == Flat(d)
  {
    if d.Lit? {
      OnlyRendering(d.rest, v[1..]);
      assert v == [d.t] + v[1..];
    }
  }
}
