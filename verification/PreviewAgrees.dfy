/** When the preview shows what `spin` would send with every first option chosen. */
module PreviewAgrees {
  import opened Seqs
  import opened Text
  import opened Template
  import opened Document
  import opened Parser
  import opened Rewriting
  import opened Spintax
  import opened SpinMeaning
  import opened Preview

  // ---------------------------------------------------------------- passes keep the first options

  /** Every group replaced by its first option. */
  function First(d: Doc): (f: Doc)
    ensures !HasGroup(f)
  {
    match d
    case End => End
    case Lit(t, rest) => Lit(t, First(rest))
    case Group(a, rest) =>
      AppendGroups(First(a.d), First(rest));
      Append(First(a.d), First(rest))
  }

  lemma {:induction false} AppendGroups(d: Doc, e: Doc)
    requires !HasGroup(d)
    ensures HasGroup(Append(d, e)) <==> HasGroup(e)
  {
    if d.Lit? {
      AppendGroups(d.rest, e);
    }
  }

  lemma {:induction false} FirstAppend(d: Doc, e: Doc)
    requires Bare(d)
    ensures First(Append(d, e)) == Append(First(d), First(e))
    ensures First(d) == d
  {
    if d.Lit? {
      FirstAppend(d.rest, e);
    }
  }

  lemma {:induction false} PassFirst(d: Doc, ready: bool, last: bool)
    ensures First(Pass(d, ready, last)) == First(d)
    decreases d
  {
    hide Seen;
    match d
    case End =>
    case Lit(t, rest) => PassFirst(rest, t != Ch('{'), last);
    case Group(a, rest) =>
      if ready && Seen(a, rest, last) {
        PassFirst(rest, false, last);
        SeenBare(a, rest, last);
        FirstAppend(a.d, Pass(rest, false, last));
      } else {
        PassFirst(rest, true, last);
        PassAltsFirst(a, false);
      }
  }

  lemma {:induction false} PassAltsFirst(a: Alts, ready: bool)
    ensures First(PassAlts(a, ready).d) == First(a.d)
    decreases a
  {
    PassFirst(a.d, ready, a.One?);
  }

  lemma {:induction false} PassNFirst(d: Doc, k: nat)
    ensures First(PassN(d, k)) == First(d)
    decreases k
  {
    if k > 0 {
      PassFirst(d, true, false);
      PassNFirst(Pass(d, true, false), k - 1);
    }
  }

  lemma {:induction false} FirstIdle(d: Doc)
    requires !HasGroup(d)
    ensures First(d) == d
  {
    if d.Lit? {
      FirstIdle(d.rest);
    }
  }

  /** A group takes more room than its first option. */
  lemma {:induction false} GroupsTakeRoom(d: Doc, fields: seq<string>)
    ensures |Print(First(d), fields)| <= |Print(d, fields)|
    ensures HasGroup(d) ==> |Print(First(d), fields)| < |Print(d, fields)|
    decreases d
  {
    hide Meaning;
    match d
    case End =>
    case Lit(_, rest) => GroupsTakeRoom(rest, fields);
    case Group(a, rest) =>
      GroupsTakeRoom(a.d, fields);
      GroupsTakeRoom(rest, fields);
      AppendPrint(First(a.d), First(rest), fields);
      FirstInside(a, fields);
  }

  lemma FirstInside(a: Alts, fields: seq<string>)
    ensures |Print(a.d, fields)| <= |PrintAlts(a, fields)|
  {
  }

  // ---------------------------------------------------------------- the same template for spin

  /** The text of a tree is the text its pieces stand for. */
  lemma {:induction false} PrintExpands(d: Doc, fields: seq<string>)
    ensures Print(d, fields) == Expand(Flat(d), fields)
  {
    hide Expand, Meaning, Flat, FlatAlts;
    match d
    case End =>
      FlatEnd();
      ExpandNil(fields);
    case Lit(t, rest) =>
      PrintExpands(rest, fields);
      FlatLit(t, rest);
      ExpandCons(t, Flat(rest), fields);
    case Group(a, rest) =>
      PrintExpands(rest, fields);
      PrintAltsExpands(a, fields);
      FlatGroup(a, rest);
      ExpandGroup(FlatAlts(a), Flat(rest), fields);
  }

  lemma ExpandGroup(x: seq<Tok>, y: seq<Tok>, fields: seq<string>)
    ensures Expand([Ch('{')] + x + [Ch('}')] + y, fields)
            == "{" + (Expand(x, fields) + ("}" + Expand(y, fields)))
  {
    hide Expand;
    Assoc([Ch('{')] + x, [Ch('}')], y);
    Assoc([Ch('{')], x, [Ch('}')] + y);
    ExpandCons(Ch('{'), x + ([Ch('}')] + y), fields);
    ExpandConcat(x, [Ch('}')] + y, fields);
    ExpandCons(Ch('}'), y, fields);
  }

  lemma {:induction false} PrintAltsExpands(a: Alts, fields: seq<string>)
    ensures PrintAlts(a, fields) == Expand(FlatAlts(a), fields)
  {
    hide Expand, Flat;
    match a
    case One(d) => PrintExpands(d, fields);
    case More(d, tail) =>
      PrintExpands(d, fields);
      PrintAltsExpands(tail, fields);
      Assoc(Flat(d), [Ch('|')], FlatAlts(tail));
      ExpandConcat(Flat(d), [Ch('|')] + FlatAlts(tail), fields);
      ExpandCons(Ch('|'), FlatAlts(tail), fields);
  }

  lemma {:induction false} FlatAppend(d: Doc, e: Doc)
    requires !HasGroup(d)
    ensures Flat(Append(d, e)) == Flat(d) + Flat(e)
  {
    if d.Lit? {
      FlatAppend(d.rest, e);
      Assoc([d.t], Flat(d.rest), Flat(e));
    }
  }

  /** A source that always returns zero chooses every first option. */
  lemma {:induction false} RenderFirst(d: Doc, random: nat -> real, i: nat)
    requires IsRandom(random) && forall k :: random(k) == 0.0
    ensures Render(d, random, i) == Flat(First(d))
    decreases d
  {
    hide RenderAlts, Pick, Draws, DrawsAlts, Flat;
    match d
    case End => FlatEnd();
    case Lit(t, rest) =>
      RenderFirst(rest, random, i);
      FlatLit(t, First(rest));
    case Group(a, rest) =>
      var j := i + DrawsAlts(a);
      RenderFirst(a.d, random, i);
      FirstAlternative(a, random, i);
      RenderFirst(rest, random, if Count(a) > 1 then j + 1 else j);
      RenderGroup(a, rest, random, i);
      PickZero(Count(a));
      FlatAppend(First(a.d), First(rest));
  }

  lemma PickZero(n: nat)
    requires n > 0
    ensures Pick(0.0, n) == 0
  {
  }

  lemma FirstAlternative(a: Alts, random: nat -> real, i: nat)
    requires IsRandom(random)
    ensures RenderAlts(a, random, i)[0] == Render(a.d, random, i)
  {
  }

  /** The pieces of a text are characters and placeholders of that text. */
  lemma {:induction false} TokensHeld(s: string, n: nat, fields: seq<string>)
    requires n <= |fields| && fields[n..] == Fields(s)
    ensures forall t :: t in Tokens(s, n) ==> HeldTok(t, fields)
    decreases |s|
  {
    hide PlaceholderLen, IsField;
    if s != "" {
      var len := PlaceholderLen(s);
      if len > 0 {
        assert fields[n..][1..] == fields[n + 1..] && fields[n..][0] == fields[n];
        PlaceholderIsField(s);
        TokensHeld(s[len..], n + 1, fields);
      } else {
        TokensHeld(s[1..], n, fields);
      }
    }
  }

  lemma PlaceholderIsField(s: string)
    requires PlaceholderLen(s) > 0
    ensures IsField(s[..PlaceholderLen(s)])
  {
    hide PlaceholderLen;
    var before, name, after := PlaceholderShape(s);
    BracedIsField(before, name, after);
  }

  lemma BracedIsField(before: string, name: string, after: string)
    requires All(before, IsSpace) && All(name, IsNameChar) && All(after, IsSpace)
    ensures IsField(Braced(before, name, after))
  {
    var f := Braced(before, name, after);
    var m := before + name + after;
    assert f == "{{" + m + "}}";
    assert forall k :: 0 <= k < |m| ==> IsSpace(m[k]) || IsNameChar(m[k]);
    forall k | 2 <= k < |f| - 2 ensures !IsBrace(f[k]) && f[k] != '|' {
      assert f[k] == m[k - 2];
    }
  }

  lemma {:induction false} HeldFlat(d: Doc, fields: seq<string>)
    requires forall t :: t in Flat(d) ==> HeldTok(t, fields)
    ensures Held(d, fields)
  {
    hide HeldTok;
    match d
    case End =>
    case Lit(t, rest) =>
      assert t in Flat(d);
      HeldFlat(rest, fields);
    case Group(a, rest) =>
      HeldFlatAlts(a, fields);
      HeldFlat(rest, fields);
  }

  lemma {:induction false} HeldFlatAlts(a: Alts, fields: seq<string>)
    requires forall t :: t in FlatAlts(a) ==> HeldTok(t, fields)
    ensures HeldAlts(a, fields)
  {
    hide HeldTok;
    match a
    case One(d) => HeldFlat(d, fields);
    case More(d, tail) =>
      HeldFlat(d, fields);
      HeldFlatAlts(tail, fields);
  }

  /** Every text is the text of its tree. */
  lemma TextPrints(text: string)
    ensures var d := TreeOf(text);
            Wf(d, false) && Held(d, Fields(text)) && Print(d, Fields(text)) == text
  {
    hide Tokens, Fields, Parse, Wf, Held, Print, Flat, Expand, HeldTok;
    var d := TreeOf(text);
    ParseWf(Tokens(text, 0), false);
    FlatParse(Tokens(text, 0));
    assert Fields(text)[0..] == Fields(text);
    TokensHeld(text, 0, Fields(text));
    HeldFlat(d, Fields(text));
    PrintExpands(d, Fields(text));
    TokensExpand(text, 0, Fields(text));
  }

  /** `spin` with a source that always returns zero keeps every first option. */
  lemma SpinKeepsFirst(text: string, random: nat -> real)
    requires IsRandom(random) && forall k :: random(k) == 0.0
    requires |text| <= 20_000 && NUL !in text
    ensures Spun(text, random) == Print(First(TreeOf(text)), Fields(text))
  {
    hide Spun, Render, Expand, Fields, TreeOf, Flat, Print;
    SpunIsExpansion(text, random);
    RenderFirst(TreeOf(text), random, 0);
    PrintExpands(First(TreeOf(text)), Fields(text));
  }

  // ---------------------------------------------------------------- what can be collapsed at all

  predicate HasHole(d: Doc) {
    match d
    case End => false
    case Lit(t, rest) => t.Hole? || HasHole(rest)
    case Group(a, rest) => HasHoleAlts(a) || HasHole(rest)
  }

  predicate HasHoleAlts(a: Alts) {
    match a
    case One(d) => HasHole(d)
    case More(d, tail) => HasHole(d) || HasHoleAlts(tail)
  }

  /**
   * Nothing stands in the way of a collapse, however many passes there are: every group has two
   * options or more and no merge field inside, no opening brace stands directly before it and no
   * closing one directly behind it, be it stray or of the group around it.
   */
  predicate Free(d: Doc, behind: bool, last: bool) {
    match d
    case End => true
    case Lit(t, rest) => Free(rest, t == Ch('{'), last)
    case Group(a, rest) =>
      && a.More? && !behind && !Shuts(rest, last) && !HasHoleAlts(a)
      && FreeAlts(a, true) && Free(rest, false, last)
  }

  predicate FreeAlts(a: Alts, behind: bool) {
    match a
    case One(d) => Free(d, behind, true)
    case More(d, tail) => Free(d, behind, false) && FreeAlts(tail, false)
  }

  lemma {:induction false} ShutsAppend(d: Doc, e: Doc, last: bool)
    requires Bare(d) && Inner(d)
    ensures Shuts(Append(d, e), last) <==> d.End? && Shuts(e, last)
  {
  }

  /** No pass brings a closing brace closer. */
  lemma {:induction false} PassShuts(d: Doc, open: bool, ready: bool, last: bool)
    requires Wf(d, open)
    ensures Shuts(Pass(d, ready, last), last) <==> Shuts(d, last)
  {
    hide InnerAlts;
    if d.Group? && ready && Seen(d.alts, d.rest, last) {
      SeenBare(d.alts, d.rest, last);
      AltInner(d.alts);
      PassShuts(d.rest, open, false, last);
      ShutsAppend(d.alts.d, Pass(d.rest, false, last), last);
    }
  }

  lemma {:induction false} BareAppend(d: Doc, e: Doc, behind: bool, last: bool)
    requires Bare(d) && Inner(d)
    ensures Free(Append(d, e), behind, last) == Free(e, behind && d.End?, last)
    ensures HasHole(Append(d, e)) == HasHole(e)
    ensures !HasHole(d)
  {
    if d.Lit? {
      BareAppend(d.rest, e, false, last);
    }
  }

  lemma {:induction false} BareFree(d: Doc, behind: bool, last: bool)
    requires Bare(d)
    ensures Free(d, behind, last) && !HasHole(d)
  {
    if d.Lit? {
      BareFree(d.rest, d.t == Ch('{'), last);
    }
  }

  lemma {:induction false} BareAltsFree(a: Alts, behind: bool)
    requires BareAlts(a)
    ensures FreeAlts(a, behind) && !HasHoleAlts(a)
  {
    BareFree(a.d, behind, a.One?);
    if a.More? {
      BareAltsFree(a.tail, false);
    }
  }

  lemma {:induction false} PassHole(d: Doc, ready: bool, last: bool)
    requires Wf(d, true) || Wf(d, false)
    ensures HasHole(Pass(d, ready, last)) == HasHole(d)
    decreases d
  {
    hide Seen, InnerAlts;
    match d
    case End =>
    case Lit(t, rest) => PassHole(rest, t != Ch('{'), last);
    case Group(a, rest) =>
      if ready && Seen(a, rest, last) {
        PassHole(rest, false, last);
        SeenBare(a, rest, last);
        AltInner(a);
        BareAppend(a.d, Pass(rest, false, last), false, last);
        BareAltsFree(a, false);
      } else {
        PassHole(rest, true, last);
        PassAltsHole(a, false);
      }
  }

  lemma {:induction false} PassAltsHole(a: Alts, ready: bool)
    requires InnerAlts(a)
    ensures HasHoleAlts(PassAlts(a, ready)) == HasHoleAlts(a)
    decreases a
  {
    InnerWf(a.d);
    PassHole(a.d, ready, a.One?);
    if a.More? {
      PassAltsHole(a.tail, true);
    }
  }

  /** A pass neither creates nor removes an obstacle. */
  lemma {:induction false} PassFree(d: Doc, open: bool, ready: bool, behind: bool, last: bool)
    requires Wf(d, open) && (behind ==> !ready)
    ensures Free(Pass(d, ready, last), behind, last) == Free(d, behind, last)
    decreases d
  {
    hide Seen, InnerAlts, Shuts, HasHole, HasHoleAlts;
    match d
    case End =>
    case Lit(t, rest) => PassFree(rest, open || t == Ch('{'), t != Ch('{'), t == Ch('{'), last);
    case Group(a, rest) =>
      if ready && Seen(a, rest, last) {
        PassFree(rest, open, false, false, last);
        SeenBare(a, rest, last);
        AltInner(a);
        BareAppend(a.d, Pass(rest, false, last), false, last);
        BareAltsFree(a, true);
      } else {
        PassFree(rest, open, true, false, last);
        PassAltsFree(a, true);
        PassAltsHole(a, false);
        PassShuts(rest, open, true, last);
      }
  }

  lemma {:induction false} PassAltsFree(a: Alts, behind: bool)
    requires InnerAlts(a)
    ensures FreeAlts(PassAlts(a, !behind), behind) == FreeAlts(a, behind)
    decreases a
  {
    InnerWf(a.d);
    PassFree(a.d, true, !behind, behind, a.One?);
    if a.More? {
      PassAltsFree(a.tail, false);
    }
  }

  // ---------------------------------------------------------------- how many passes are needed

  /**
   * The passes that find the character before a group taken by another match are the bits set in
   * `taken`. A group that is ready for a match after `wait` passes collapses in the first pass from
   * there on that finds it free.
   */
  function Turn(taken: nat, wait: nat): nat {
    if wait > 0 then 1 + Turn(taken / 2, wait - 1)
    else if taken % 2 == 1 then 1 + Turn(taken / 2, 0)
    else 0
  }

  /**
   * The passes that find the character behind it taken: the one in which it collapses, and after
   * that, if nothing is left of it, those that found the character before it taken.
   */
  function Takes(taken: nat, wait: nat, empty: bool): nat {
    if wait > 0 then 2 * Takes(taken / 2, wait - 1, empty)
    else if taken % 2 == 1 then 2 * Takes(taken / 2, 0, empty)
    else if empty then taken + 1
    else 1
  }

  /** How many passes clear the template, one alternative of a group like the next. */
  function Needed(d: Doc, taken: nat): nat {
    match d
    case End => 0
    case Lit(_, rest) => Needed(rest, 0)
    case Group(a, rest) =>
      var wait := NeededAlts(a);
      Max(Turn(taken, wait) + 1, Needed(rest, Takes(taken, wait, a.d.End?)))
  }

  function NeededAlts(a: Alts): nat {
    match a
    case One(d) => Needed(d, 0)
    case More(d, tail) => Max(Needed(d, 0), NeededAlts(tail))
  }

  function Max(x: nat, y: nat): nat {
    if x < y then y else x
  }

  function Pred(n: nat): nat {
    if n == 0 then 0 else n - 1
  }

  lemma {:induction false} NeededZero(d: Doc, taken: nat)
    ensures Needed(d, taken) == 0 <==> !HasGroup(d)
  {
    if d.Lit? {
      NeededZero(d.rest, 0);
    }
  }

  lemma {:induction false} NeededAltsZero(a: Alts)
    ensures NeededAlts(a) == 0 <==> !HasGroupAlts(a)
  {
    NeededZero(a.d, 0);
    if a.More? {
      NeededAltsZero(a.tail);
    }
  }

  lemma {:induction false} NeededAppend(d: Doc, e: Doc, taken: nat)
    requires Bare(d)
    ensures Needed(Append(d, e), taken) == Needed(e, if d.End? then taken else 0)
  {
    if d.Lit? {
      NeededAppend(d.rest, e, 0);
    }
  }

  lemma {:induction false} BareAltsIff(a: Alts)
    requires !HasHoleAlts(a)
    ensures BareAlts(a) <==> !HasGroupAlts(a)
  {
    BareIff(a.d) by { assert !HasHole(a.d); }
    if a.More? {
      BareAltsIff(a.tail);
    }
  }

  lemma {:induction false} BareIff(d: Doc)
    requires !HasHole(d)
    ensures Bare(d) <==> !HasGroup(d)
  {
    if d.Lit? {
      BareIff(d.rest);
    }
  }

  /** Each pass takes one off the number of passes needed. */
  lemma {:induction false} NeededHalves(d: Doc, open: bool, ready: bool, behind: bool, last: bool, taken: nat)
    requires Wf(d, open) && Free(d, behind, last)
    requires if behind then !ready else ready == (taken % 2 == 0)
    ensures Needed(Pass(d, ready, last), taken / 2) == Pred(Needed(d, taken))
    decreases d
  {
    hide Seen, InnerAlts, Shuts, HasHoleAlts, Turn, Takes, FreeAlts;
    match d
    case End =>
    case Lit(t, rest) => NeededHalves(rest, open || t == Ch('{'), t != Ch('{'), t == Ch('{'), last, 0);
    case Group(a, rest) =>
      var next := Takes(taken, NeededAlts(a), a.d.End?);
      TakesOdd(taken, NeededAlts(a), a.d.End?);
      if ready && Seen(a, rest, last) {
        NeededHalves(rest, open, false, false, last, next) by { SeenNow(a, rest, last); }
        HalvesTaken(a, rest, last, taken);
      } else {
        LeftLater(a, rest, ready, last);
        NeededHalves(rest, open, true, false, last, next);
        NeededAltsHalves(a, true);
        PassEmpty(a);
        HalvesLeft(a, rest, ready, last, taken);
      }
  }

  /** A group collapses at once exactly when nothing is left inside and its place is free. */
  lemma TakesOdd(taken: nat, wait: nat, empty: bool)
    ensures Takes(taken, wait, empty) % 2 == 1 <==> wait == 0 && taken % 2 == 0
    ensures Turn(taken, wait) == 0 <==> wait == 0 && taken % 2 == 0
    ensures !(wait == 0 && taken % 2 == 0) ==>
              && Takes(taken, wait, empty) == 2 * Takes(taken / 2, Pred(wait), empty)
              && Turn(taken, wait) == 1 + Turn(taken / 2, Pred(wait))
  {
  }

  lemma SeenNow(a: Alts, rest: Doc, last: bool)
    requires Seen(a, rest, last)
    ensures NeededAlts(a) == 0 && Bare(a.d)
  {
    BareAltsFree(a, false);
    BareAltsIff(a);
    NeededAltsZero(a);
  }

  lemma LeftLater(a: Alts, rest: Doc, ready: bool, last: bool)
    requires a.More? && !Shuts(rest, last) && !HasHoleAlts(a) && !(ready && Seen(a, rest, last))
    ensures NeededAlts(a) > 0 || !ready
  {
    BareAltsIff(a);
    NeededAltsZero(a);
  }

  lemma PassEmpty(a: Alts)
    ensures PassAlts(a, false).d.End? == a.d.End?
  {
  }

  lemma HalvesTaken(a: Alts, rest: Doc, last: bool, taken: nat)
    requires Seen(a, rest, last) && taken % 2 == 0
    requires var next := Takes(taken, NeededAlts(a), a.d.End?);
             Needed(Pass(rest, false, last), next / 2) == Pred(Needed(rest, next))
    ensures Needed(Pass(Group(a, rest), true, last), taken / 2) == Pred(Needed(Group(a, rest), taken))
  {
    SeenNow(a, rest, last);
    hide Seen, NeededAlts;
    NeededAppend(a.d, Pass(rest, false, last), taken / 2);
    TakesNow(taken, a.d.End?);
  }

  lemma TakesNow(taken: nat, empty: bool)
    requires taken % 2 == 0
    ensures Takes(taken, 0, empty) / 2 == if empty then taken / 2 else 0
  {
  }

  lemma HalvesLeft(a: Alts, rest: Doc, ready: bool, last: bool, taken: nat)
    requires !(ready && Seen(a, rest, last)) && !(NeededAlts(a) == 0 && taken % 2 == 0)
    requires NeededAlts(PassAlts(a, false)) == Pred(NeededAlts(a)) && PassAlts(a, false).d.End? == a.d.End?
    requires var next := Takes(taken, NeededAlts(a), a.d.End?);
             Needed(Pass(rest, true, last), next / 2) == Pred(Needed(rest, next))
    ensures Needed(Pass(Group(a, rest), ready, last), taken / 2) == Pred(Needed(Group(a, rest), taken))
  {
    TakesOdd(taken, NeededAlts(a), a.d.End?);
    LeftPass(a, rest, ready, last);
    hide Turn, Takes, Pass, PassAlts, NeededAlts;
  }

  lemma {:induction false} NeededAltsHalves(a: Alts, behind: bool)
    requires InnerAlts(a) && FreeAlts(a, behind)
    ensures NeededAlts(PassAlts(a, !behind)) == Pred(NeededAlts(a))
    decreases a
  {
    InnerWf(a.d);
    NeededHalves(a.d, true, !behind, behind, a.One?, 0);
    if a.More? {
      NeededAltsHalves(a.tail, false);
    }
  }

  lemma {:induction false} PassNFree(d: Doc, k: nat)
    requires Wf(d, false)
    ensures Free(PassN(d, k), false, false) == Free(d, false, false)
    decreases k
  {
    if k > 0 {
      PassFree(d, false, true, false, false);
      PassWf(d, false, true, false);
      PassNFree(Pass(d, true, false), k - 1);
    }
  }

  lemma {:induction false} FlatFree(d: Doc, behind: bool, last: bool)
    requires !HasGroup(d)
    ensures Free(d, behind, last)
  {
    if d.Lit? {
      FlatFree(d.rest, d.t == Ch('{'), last);
    }
  }

  /** `k` passes clear the template exactly when nothing is in the way and `k` are enough. */
  lemma {:induction false} PassesSuffice(d: Doc, k: nat)
    requires Wf(d, false)
    ensures !HasGroup(PassN(d, k)) <==> Free(d, false, false) && Needed(d, 0) <= k
  {
    PassNFree(d, k);
    if !HasGroup(PassN(d, k)) {
      FlatFree(PassN(d, k), false, false);
    }
    if Free(d, false, false) {
      PassesCount(d, k);
    }
  }

  lemma {:induction false} PassesCount(d: Doc, k: nat)
    requires Wf(d, false) && Free(d, false, false)
    ensures !HasGroup(PassN(d, k)) <==> Needed(d, 0) <= k
    decreases k
  {
    if k == 0 {
      NeededZero(d, 0);
    } else {
      PassFree(d, false, true, false, false);
      PassWf(d, false, true, false);
      NeededHalves(d, false, true, false, false, 0);
      PassesCount(Pass(d, true, false), k - 1);
    }
  }

  // ---------------------------------------------------------------- the theorem

  /** The preview of a template keeps its first options exactly when its passes clear it. */
  lemma PreviewKeepsFirst(d: Doc, fields: seq<string>, k: nat)
    requires Wf(d, false) && Held(d, fields)
    ensures Collapse(Print(d, fields), k) == Print(First(d), fields)
            <==> Free(d, false, false) && Needed(d, 0) <= k
  {
    hide Free, Needed, Wf, Held, Print, Collapse, PassN, First;
    var e := PassN(d, k);
    CollapseWrites(d, fields, k);
    PassesSuffice(d, k);
    PassNFirst(d, k);
    GroupsTakeRoom(e, fields);
    if !HasGroup(e) {
      FirstIdle(e);
    }
  }

  /** On any text the preview is what `spin` sends under the all-zero source exactly in that case. */
  lemma PreviewAgreesWithSpin(text: string, random: nat -> real)
    requires IsRandom(random) && forall k :: random(k) == 0.0
    requires |text| <= 20_000 && NUL !in text
    ensures Collapse(text, PASSES) == Spun(text, random)
            <==> Free(TreeOf(text), false, false) && Needed(TreeOf(text), 0) <= PASSES
  {
    hide Free, Needed, Wf, Held, Print, Collapse, First, Spun, TreeOf, Fields;
    TextPrints(text);
    PreviewKeepsFirst(TreeOf(text), Fields(text), PASSES);
    SpinKeepsFirst(text, random);
  }

  // ---------------------------------------------------------------- when ten passes are enough

  function Pow2(k: nat): (n: nat)
    ensures n > 0
  {
    if k == 0 then 1 else 2 * Pow2(k - 1)
  }

  /** The number of groups, each counted twice for every group around it. */
  function Weight(d: Doc): nat {
    match d
    case End => 0
    case Lit(_, rest) => Weight(rest)
    case Group(a, rest) => 1 + 2 * WeightAlts(a) + Weight(rest)
  }

  function WeightAlts(a: Alts): nat {
    match a
    case One(d) => Weight(d)
    case More(d, tail) => Weight(d) + WeightAlts(tail)
  }

  /** A group that waits for passes still finds a turn while the bits of `taken` leave room. */
  lemma {:induction false} TurnBound(taken: nat, wait: nat, empty: bool, k: nat)
    requires taken + Pow2(wait) < Pow2(k)
    ensures Turn(taken, wait) < k
    ensures Takes(taken, wait, empty) <= taken + Pow2(wait)
    decreases k
  {
    hide Turn, Takes;
    TakesOdd(taken, wait, empty);
    if wait == 0 && taken % 2 == 0 {
      TakesFirst(taken, empty);
    } else {
      HalfRoom(taken, wait, k);
      TurnBound(taken / 2, Pred(wait), empty, k - 1);
    }
  }

  lemma TakesFirst(taken: nat, empty: bool)
    requires taken % 2 == 0
    ensures Takes(taken, 0, empty) == if empty then taken + 1 else 1
  {
  }

  lemma HalfRoom(taken: nat, wait: nat, k: nat)
    requires taken + Pow2(wait) < Pow2(k) && !(wait == 0 && taken % 2 == 0)
    ensures k > 0 && taken / 2 + Pow2(Pred(wait)) < Pow2(k - 1)
    ensures 2 * (taken / 2 + Pow2(Pred(wait))) <= taken + Pow2(wait)
  {
    assert k > 0;
    assert Pow2(k) == 2 * Pow2(k - 1);
    if wait > 0 {
      assert Pow2(wait) == 2 * Pow2(wait - 1);
    }
  }

  /** A template without obstacles of weight below 2^k is cleared in k passes. */
  lemma {:induction false} LightFits(d: Doc, taken: nat, k: nat)
    requires taken + Weight(d) < Pow2(k)
    ensures Needed(d, taken) <= k
    decreases d, 0
  {
    hide Turn, Takes;
    match d
    case End =>
    case Lit(_, rest) => LightFits(rest, 0, k);
    case Group(a, rest) =>
      var wait := NeededAlts(a);
      LightAltsFit(a);
      TurnBound(taken, wait, a.d.End?, k);
      LightFits(rest, Takes(taken, wait, a.d.End?), k);
  }

  lemma {:induction false} LightAltsFit(a: Alts)
    ensures Pow2(NeededAlts(a)) <= 1 + 2 * WeightAlts(a)
    decreases a, 0
  {
    LightAltFits(a.d);
    if a.More? {
      LightAltsFit(a.tail);
    }
  }

  lemma {:induction false} LightAltFits(d: Doc)
    ensures Pow2(Needed(d, 0)) <= 1 + 2 * Weight(d)
    decreases d, 1
  {
    var n := Needed(d, 0);
    if n > 0 && Weight(d) < Pow2(n - 1) {
      LightFits(d, 0, n - 1);
    }
  }

  /** `{|b}{|b}…`, `n` groups in a row. */
  function EmptyFirsts(n: nat): Doc {
    if n == 0 then End else Group(More(End, One(Lit(Ch('b'), End))), EmptyFirsts(n - 1))
  }

  /** The number of the lowest bit that is not set, and the number below which it lies. */
  lemma {:induction false} TurnCounts(taken: nat, k: nat)
    requires taken < Pow2(k)
    ensures Takes(taken, 0, true) == taken + 1
    ensures Turn(taken, 0) < k <==> taken + 1 < Pow2(k)
    decreases k
  {
    if taken % 2 == 1 {
      TurnCounts(taken / 2, k - 1);
    }
  }

  /** Groups in a row whose first option is empty: 1023 are cleared in ten passes, 1024 are not. */
  lemma {:induction false} EmptyFirstsFit(n: nat, taken: nat, k: nat)
    requires taken < Pow2(k)
    ensures Needed(EmptyFirsts(n), taken) <= k <==> taken + n < Pow2(k)
    ensures Wf(EmptyFirsts(n), false) && Held(EmptyFirsts(n), []) && Free(EmptyFirsts(n), false, false)
  {
    hide Turn, Takes;
    if n > 0 {
      TurnCounts(taken, k);
      EmptyFirstsFit(n - 1, if taken + 1 < Pow2(k) then taken + 1 else 0, k);
      EmptyFirstsCons(n, taken);
    }
  }

  lemma EmptyFirstsCons(n: nat, taken: nat)
    requires n > 0
    ensures var rest := EmptyFirsts(n - 1);
            Needed(EmptyFirsts(n), taken) == Max(Turn(taken, 0) + 1, Needed(rest, Takes(taken, 0, true)))
    ensures Shuts(EmptyFirsts(n), false) == false
  {
    hide Turn, Takes;
  }

  /** A template well within the length limit, without obstacles, on which preview and sender differ. */
  lemma TenPassesNotAlwaysEnough()
    ensures var d := EmptyFirsts(1024);
            Free(d, false, false) && Collapse(Print(d, []), PASSES) != Print(First(d), [])
  {
    hide EmptyFirsts, Print, Collapse, First, Free, Needed, Wf, Held;
    assert Pow2(PASSES) == 1024 by { PowerOfPasses(); }
    EmptyFirstsFit(1024, 0, PASSES);
    PreviewKeepsFirst(EmptyFirsts(1024), [], PASSES);
  }

  lemma PowerOfPasses()
    ensures Pow2(PASSES) == 1024
  {
    assert Pow2(3) == 8;
    assert Pow2(6) == 64;
    assert Pow2(9) == 512;
  }

  /** `{d|e}` before `rest`. */
  function Either(d: Doc, e: Doc, rest: Doc): Doc {
    Group(More(d, One(e)), rest)
  }

  /** An obstacle is one for good: no number of passes keeps the first options of such a template. */
  lemma ObstaclesStay(d: Doc, fields: seq<string>, k: nat)
    requires Wf(d, false) && Held(d, fields) && !Free(d, false, false)
    ensures Collapse(Print(d, fields), k) != Print(First(d), fields)
  {
    PreviewKeepsFirst(d, fields, k);
  }

  /** `{x|{d|e}}`, `{d|e}}` and `{{d|e}` hold an obstacle, and so does a group with a merge field inside. */
  lemma Obstacles(x: Doc, d: Doc, e: Doc, rest: Doc, i: nat)
    ensures !Free(Either(x, Either(d, e, End), rest), false, false)
    ensures !Free(Either(d, e, Lit(Ch('}'), rest)), false, false)
    ensures !Free(Lit(Ch('{'), Either(d, e, rest)), false, false)
    ensures !Free(Either(Lit(Hole(i), x), e, rest), false, false)
  {
    var inner := Either(d, e, End);
    assert !Free(inner, false, true) by { assert Shuts(End, true); }
    assert !FreeAlts(More(x, One(inner)), true) by { assert !FreeAlts(One(inner), false); }
    assert HasHoleAlts(More(Lit(Hole(i), x), One(e))) by { assert HasHole(Lit(Hole(i), x)); }
  }
}
