/** Merge-field placeholders: finding them, stashing them behind sentinels, restoring them. */
module Template {
  import opened Seqs
  import opened Text

  /** A piece of a template once its placeholders are hidden: a character, or the n-th placeholder. */
  datatype Tok = Ch(c: char) | Hole(index: nat)

  const NUL := '\U{0000}'

  /**
   * Length of the placeholder `{{ name }}` at the head of `s`, or 0. The classes `\s` and
   * `[\w.]` share no character, so greedy matching never needs to backtrack.
   */
  function PlaceholderLen(s: string): (n: nat)
    ensures n <= |s|
    ensures n > 0 ==> n >= 5 && s[0] == '{' && s[1] == '{' && s[n - 1] == '}'
  {
    if |s| < 2 || s[0] != '{' || s[1] != '{' then 0
    else
      var a := 2 + Run(s[2..], IsSpace);
      var b := a + Run(s[a..], IsNameChar);
      var c := b + Run(s[b..], IsSpace);
      if a < b && c + 2 <= |s| && s[c] == '}' && s[c + 1] == '}' then c + 2 else 0
  }

  /** The text of the placeholder with this name and padding. */
  function Braced(before: string, name: string, after: string): string {
    "{{" + (before + (name + (after + "}}")))
  }

  predicate All(s: string, p: char -> bool) {
    forall k :: 0 <= k < |s| ==> p(s[k])
  }

  /** The pattern `\{\{\s*[\w.]+\s*\}\}` is matched by a text of that form, whatever follows, */
  lemma PlaceholderMatches(before: string, name: string, after: string, rest: string)
    requires All(before, IsSpace) && All(name, IsNameChar) && name != "" && All(after, IsSpace)
    ensures PlaceholderLen(Braced(before, name, after) + rest) == |Braced(before, name, after)|
  {
    hide Run, PlaceholderLen, Braced;
    var u3 := "}}" + rest;
    var u2 := after + u3;
    var u1 := name + u2;
    var s := "{{" + (before + u1);
    BracedThen(before, name, after, rest);
    Suffixes(before, name, after, u3);
    RunEnds(before, u1, IsSpace);
    RunEnds(name, u2, IsNameChar);
    RunEnds(after, u3, IsSpace);
    PlaceholderFrom(s, |before|, |name|, |after|);
  }

  lemma Suffixes(x: string, y: string, z: string, u: string)
    ensures var s := "{{" + (x + (y + (z + u)));
            && |s| == 2 + |x| + |y| + |z| + |u| && s[0] == '{' && s[1] == '{'
            && s[2..] == x + (y + (z + u)) && s[2 + |x|..] == y + (z + u)
            && s[2 + |x| + |y|..] == z + u && s[2 + |x| + |y| + |z|..] == u
  {
    var s := "{{" + (x + (y + (z + u)));
    Parts("{{", x + (y + (z + u)));
    Parts(x, y + (z + u));
    Parts(y, z + u);
    Parts(z, u);
    Cut(s, 2, |x|);
    Cut(s, 2 + |x|, |y|);
    Cut(s, 2 + |x| + |y|, |z|);
  }

  lemma BracedThen(before: string, name: string, after: string, rest: string)
    ensures Braced(before, name, after) + rest == "{{" + (before + (name + (after + ("}}" + rest))))
    ensures |Braced(before, name, after)| == 4 + |before| + |name| + |after|
  {
    Assoc(after, "}}", rest);
    Assoc(name, after + "}}", rest);
    Assoc(before, name + (after + "}}"), rest);
    Assoc("{{", before + (name + (after + "}}")), rest);
  }

  lemma PlaceholderFrom(s: string, i: nat, j: nat, k: nat)
    requires 2 + i + j + k + 2 <= |s| && s[0] == '{' && s[1] == '{' && j > 0
    requires Run(s[2..], IsSpace) == i && Run(s[2 + i..], IsNameChar) == j && Run(s[2 + i + j..], IsSpace) == k
    requires "}}" <= s[2 + i + j + k..]
    ensures PlaceholderLen(s) == 2 + i + j + k + 2
  {
    hide Run;
    var c := 2 + i + j + k;
    assert s[c..][0] == s[c] && s[c..][1] == s[c + 1];
  }

  /** and by nothing else. */
  lemma PlaceholderShape(s: string) returns (before: string, name: string, after: string)
    requires PlaceholderLen(s) > 0
    ensures All(before, IsSpace) && All(name, IsNameChar) && name != "" && All(after, IsSpace)
    ensures s[..PlaceholderLen(s)] == Braced(before, name, after)
  {
    hide Run, PlaceholderLen, Braced;
    PlaceholderParts(s);
    var i := Run(s[2..], IsSpace);
    var j := Run(s[2 + i..], IsNameChar);
    var k := Run(s[2 + i + j..], IsSpace);
    FromParts(s, i, j, k);
    return s[2..][..i], s[2 + i..][..j], s[2 + i + j..][..k];
  }

  lemma PlaceholderParts(s: string)
    requires PlaceholderLen(s) > 0
    ensures var i := Run(s[2..], IsSpace); var j := Run(s[2 + i..], IsNameChar);
            var k := Run(s[2 + i + j..], IsSpace); var c := 2 + i + j + k;
            j > 0 && PlaceholderLen(s) == c + 2 && s[..2] == "{{" && s[c..][..2] == "}}"
  {
    hide Run;
  }

  lemma FromParts(s: string, i: nat, j: nat, k: nat)
    requires 2 + i + j + k + 2 <= |s| && s[..2] == "{{" && s[2 + i + j + k..][..2] == "}}"
    ensures s[..2 + i + j + k + 2] == Braced(s[2..][..i], s[2 + i..][..j], s[2 + i + j..][..k])
  {
    var c := 2 + i + j + k;
    assert s[..c + 2] == s[..c] + "}}";
    assert s[..c] == s[..2 + i + j] + s[2 + i + j..][..k];
    assert s[..2 + i + j] == s[..2 + i] + s[2 + i..][..j];
    assert s[..2 + i] == s[..2] + s[2..][..i];
  }

  /** The template with every placeholder replaced by a numbered hole, numbering from `n`. */
  function Tokens(s: string, n: nat): seq<Tok>
    decreases |s|
  {
    if s == "" then []
    else
      var len := PlaceholderLen(s);
      if len > 0 then [Hole(n)] + Tokens(s[len..], n + 1) else [Ch(s[0])] + Tokens(s[1..], n)
  }

  /** The placeholders of the template, in order. */
  function Fields(s: string): seq<string>
    decreases |s|
  {
    if s == "" then []
    else
      var len := PlaceholderLen(s);
      if len > 0 then [s[..len]] + Fields(s[len..]) else Fields(s[1..])
  }

  /** How a piece is written while spinning: a hole becomes a brace-free sentinel. */
  function Enc(t: Tok): string {
    match t
    case Ch(c) => [c]
    case Hole(i) => [NUL, 'P', 'H'] + Dec(i) + [NUL]
  }

  function Str(ts: seq<Tok>): string {
    if ts == [] then "" else Enc(ts[0]) + Str(ts[1..])
  }

  /** What one piece stands for: a hole stands for its placeholder, verbatim. */
  function Meaning(t: Tok, fields: seq<string>): string {
    match t
    case Ch(c) => [c]
    case Hole(i) => if i < |fields| then fields[i] else ""
  }

  /** The text the pieces stand for. */
  function Expand(ts: seq<Tok>, fields: seq<string>): string {
    if ts == [] then "" else Meaning(ts[0], fields) + Expand(ts[1..], fields)
  }

  /** Length of the sentinel at the head of `s`, or 0. */
  function SentinelLen(s: string): (n: nat)
    ensures n <= |s|
    ensures n > 0 ==> n >= 5 && forall k :: 3 <= k < n - 1 ==> IsDigit(s[k])
  {
    if |s| < 3 || s[0] != NUL || s[1] != 'P' || s[2] != 'H' then 0
    else
      var d := Run(s[3..], IsDigit);
      assert forall k :: 0 <= k < d ==> IsDigit(s[3..][k]);
      if d > 0 && 3 + d < |s| && s[3 + d] == NUL then
        assert forall k :: 3 <= k < 3 + d ==> s[k] == s[3..][k - 3];
        4 + d
      else 0
  }

  /** The final global replace: every sentinel becomes its placeholder, or nothing if unknown. */
  function Restore(s: string, fields: seq<string>): string
    decreases |s|
  {
    if s == "" then ""
    else
      var len := SentinelLen(s);
      if len > 0 then
        var i := ParseDec(s[3..len - 1]);
        (if i < |fields| then fields[i] else "") + Restore(s[len..], fields)
      else [s[0]] + Restore(s[1..], fields)
  }

  lemma StrNil()
    ensures Str([]) == ""
  {
  }

  lemma StrCons(t: Tok, ts: seq<Tok>)
    ensures Str([t] + ts) == Enc(t) + Str(ts)
  {
    assert ([t] + ts)[1..] == ts;
  }

  lemma {:induction false} StrConcat(a: seq<Tok>, b: seq<Tok>)
    ensures Str(a + b) == Str(a) + Str(b)
  {
    hide Str, Enc;
    if a == [] {
      assert a + b == b;
      StrNil();
    } else {
      var t, rest := a[0], a[1..];
      StrConcat(rest, b);
      StrCons(t, rest);
      StrCons(t, rest + b);
      assert a == [t] + rest;
      Assoc([t], rest, b);
      Assoc(Enc(t), Str(rest), Str(b));
    }
  }

  lemma ExpandCons(t: Tok, ts: seq<Tok>, fields: seq<string>)
    ensures Expand([t] + ts, fields) == Meaning(t, fields) + Expand(ts, fields)
  {
    assert ([t] + ts)[1..] == ts;
  }

  /** Hiding the placeholders loses nothing: expanding the holes gives the template back. */
  lemma {:induction false} TokensExpand(s: string, n: nat, fields: seq<string>)
    requires n <= |fields| && fields[n..] == Fields(s)
    ensures Expand(Tokens(s, n), fields) == s
    decreases |s|
  {
    hide PlaceholderLen, Expand;
    if s == "" {
      assert Expand([], fields) == "" by { ExpandNil(fields); }
    } else {
      var len := PlaceholderLen(s);
      if len > 0 {
        assert fields[n..][1..] == fields[n + 1..] && fields[n..][0] == fields[n];
        TokensExpand(s[len..], n + 1, fields);
        ExpandCons(Hole(n), Tokens(s[len..], n + 1), fields);
        assert s == s[..len] + s[len..];
      } else {
        TokensExpand(s[1..], n, fields);
        ExpandCons(Ch(s[0]), Tokens(s[1..], n), fields);
        assert s == [s[0]] + s[1..];
      }
    }
  }

  lemma ExpandNil(fields: seq<string>)
    ensures Expand([], fields) == ""
  {
  }

  lemma {:induction false} ExpandConcat(a: seq<Tok>, b: seq<Tok>, fields: seq<string>)
    ensures Expand(a + b, fields) == Expand(a, fields) + Expand(b, fields)
  {
    hide Expand, Meaning;
    if a == [] {
      ExpandNil(fields);
      assert a + b == b;
    } else {
      var t, rest := a[0], a[1..];
      ExpandConcat(rest, b, fields);
      Uncons(a);
      Assoc([t], rest, b);
      ExpandCons(t, rest, fields);
      ExpandCons(t, rest + b, fields);
      Assoc(Meaning(t, fields), Expand(rest, fields), Expand(b, fields));
    }
  }

  /** A sentinel is recognised whatever follows it. */
  lemma SentinelHead(i: nat, rest: string)
    ensures SentinelLen(Enc(Hole(i)) + rest) == |Enc(Hole(i))|
    ensures (Enc(Hole(i)) + rest)[3..|Enc(Hole(i))| - 1] == Dec(i)
  {
    var s := Enc(Hole(i)) + rest;
    assert s[3..] == Dec(i) + ([NUL] + rest);
    RunEnds(Dec(i), [NUL] + rest, IsDigit);
    assert s[3 + |Dec(i)|] == s[3..][|Dec(i)|];
  }

  /** Restoring inverts the sentinels, provided the copy itself holds no NUL. */
  lemma {:induction false} RestoreStr(ts: seq<Tok>, fields: seq<string>)
    requires Ch(NUL) !in ts
    ensures Restore(Str(ts), fields) == Expand(ts, fields)
  {
    if ts != [] {
      RestoreStr(ts[1..], fields);
      match ts[0]
      case Ch(c) =>
        assert Str(ts)[1..] == Str(ts[1..]);
      case Hole(i) =>
        SentinelHead(i, Str(ts[1..]));
        ParseDecInvertsDec(i);
        assert Str(ts)[|Enc(Hole(i))|..] == Str(ts[1..]);
    }
  }

  lemma {:induction false} TokensKeepChars(s: string, n: nat, c: char)
    requires c !in s
    ensures Ch(c) !in Tokens(s, n)
    decreases |s|
  {
    if s != "" {
      var len := PlaceholderLen(s);
      if len > 0 {
        TokensKeepChars(s[len..], n + 1, c);
      } else {
        TokensKeepChars(s[1..], n, c);
      }
    }
  }

  /** The callback-driven global replace that opens `spin`. */
  method StashPlaceholders(text: string) returns (out: string, stash: seq<string>)
    ensures out == Str(Tokens(text, 0))
    ensures stash == Fields(text)
  {
    hide PlaceholderLen, Str, Enc, Tokens, Fields;
    out, stash := "", [];
    var pos := 0;
    assert text[0..] == text;
    while pos < |text|
      invariant 0 <= pos <= |text|
      invariant out + Str(Tokens(text[pos..], |stash|)) == Str(Tokens(text, 0))
      invariant stash + Fields(text[pos..]) == Fields(text)
    {
      var s := text[pos..];
      var len := PlaceholderLen(s);
      ghost var n := |stash|;
      NextPiece(s, n);
      if len > 0 {
        assert s[len..] == text[pos + len..];
        Assoc(out, Enc(Hole(n)), Str(Tokens(s[len..], n + 1)));
        Assoc(stash, [s[..len]], Fields(s[len..]));
        out := out + Enc(Hole(|stash|));
        stash := stash + [s[..len]];
        pos := pos + len;
      } else {
        assert s[1..] == text[pos + 1..];
        Assoc(out, Enc(Ch(s[0])), Str(Tokens(s[1..], n)));
        out := out + Enc(Ch(s[0]));
        pos := pos + 1;
      }
    }
    assert text[pos..] == "";
    NoPieces(|stash|);
    StrNil();
  }

  /** The head of a text is a placeholder or a character. */
  lemma NextPiece(s: string, n: nat)
    requires s != ""
    ensures var len := PlaceholderLen(s);
            if len > 0
            then Str(Tokens(s, n)) == Enc(Hole(n)) + Str(Tokens(s[len..], n + 1))
                 && Fields(s) == [s[..len]] + Fields(s[len..])
            else Str(Tokens(s, n)) == Enc(Ch(s[0])) + Str(Tokens(s[1..], n))
                 && Fields(s) == Fields(s[1..])
  {
    hide Str, Enc, Run;
    var len := PlaceholderLen(s);
    if len > 0 {
      assert Tokens(s, n) == [Hole(n)] + Tokens(s[len..], n + 1);
      StrCons(Hole(n), Tokens(s[len..], n + 1));
    } else {
      assert Tokens(s, n) == [Ch(s[0])] + Tokens(s[1..], n);
      StrCons(Ch(s[0]), Tokens(s[1..], n));
    }
  }

  lemma NoPieces(n: nat)
    ensures Tokens("", n) == [] && Fields("") == []
  {
  }
}
