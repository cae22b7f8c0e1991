/** When `toMetaTemplate` reports a problem, in terms of the message and not of the draft. */
module MetaProblems {
  import opened Seqs
  import opened Text
  import opened MetaTemplate

  // ---------------------------------------------------------------- fields at the ends

  /** A merge field or a numbered blank stands at the head of the message. */
  predicate StartsWithPiece(s: string) {
    MergeAt(s).Merge? || BlankLen(s) > 0
  }

  /** The message has a merge field or a numbered blank with nothing but stops behind it. */
  predicate EndsInPiece(s: string)
    decreases |s|
  {
    if s == "" then false
    else if MergeAt(s).Merge? then
      var t := s[MergeAt(s).len..]; Stops(t) || EndsInPiece(t)
    else if BlankLen(s) > 0 then
      var t := s[BlankLen(s)..]; Stops(t) || EndsInPiece(t)
    else EndsInPiece(s[1..])
  }

  /** The draft starts with a blank exactly when the message starts with a field or a blank. */
  lemma StartsIff(s: string, order: seq<string>)
    ensures BlankLen(Convert(s, order).body) > 0 <==> StartsWithPiece(s)
  {
    hide Convert, MergeAt, BlankLen, Blank, IndexOf, Register;
    if s == "" {
      ConvertNothing(order);
      NothingThere();
    } else if MergeAt(s).Merge? {
      ConvertStep(s, order);
      var m := MergeAt(s);
      var order' := Register(order, m.key);
      BlankHead(IndexOf(order', m.key) + 1, Convert(s[m.len..], order').body);
    } else if BlankLen(s) > 0 {
      LiteralCarried(s, order);
      BlankPrefix(s);
      FillLiteral(s[..BlankLen(s)], Convert(s[BlankLen(s)..], order).body, []);
    } else {
      NoNewBlank(s, order);
    }
  }

  lemma NothingThere()
    ensures BlankLen("") == 0 && MergeAt("").NoMerge?
  {
  }

  lemma StopsConcat(x: string, y: string)
    ensures Stops(x + y) <==> Stops(x) && Stops(y)
  {
    forall k | 0 <= k < |x| ensures (x + y)[k] == x[k] {
    }
    forall k | 0 <= k < |y| ensures (x + y)[|x| + k] == y[k] {
    }
  }

  /** Only a message of stops becomes a draft of stops. */
  lemma {:induction false} StopsIff(s: string, order: seq<string>)
    ensures Stops(Convert(s, order).body) <==> Stops(s)
    decreases |s|
  {
    hide Convert, MergeAt, IndexOf, Register;
    if s == "" {
      ConvertNothing(order);
    } else {
      ConvertStep(s, order);
      if MergeAt(s).Merge? {
        assert !IsStop(s[0]);
        assert Convert(s, order).body[0] == '{' && !IsStop('{');
      } else {
        StopsIff(s[1..], order);
        StopsConcat([s[0]], Convert(s[1..], order).body);
        StopsConcat([s[0]], s[1..]);
        Uncons(s);
      }
    }
  }

  lemma EndsCons(c: char, b: string)
    requires BlankLen([c] + b) == 0
    ensures EndsInBlank([c] + b) <==> EndsInBlank(b)
  {
    assert ([c] + b)[1..] == b;
  }

  lemma {:induction false} EndsSkips(x: string, b: string)
    requires forall k :: 0 <= k < |x| ==> x[k] != '{'
    ensures EndsInBlank(x + b) <==> EndsInBlank(b)
  {
    if x == "" {
      assert x + b == b;
    } else {
      EndsSkips(x[1..], b);
      EndsCons(x[0], x[1..] + b);
      Assoc([x[0]], x[1..], b);
      Uncons(x);
    }
  }

  /** A blank is itself the end, or the end comes behind it. */
  lemma EndsBlank(digits: string, b: string)
    requires digits != "" && forall k :: 0 <= k < |digits| ==> IsDigit(digits[k])
    ensures EndsInBlank("{{" + digits + "}}" + b) <==> Stops(b) || EndsInBlank(b)
  {
    var s := "{{" + digits + "}}" + b;
    BlankExtends(digits, b);
    var x := digits + "}}";
    assert s[|digits| + 4..] == b;
    assert s == ['{'] + (['{'] + (x + b));
    assert s[1..] == ['{'] + (x + b);
    hide EndsInBlank;
    EndsSkips(x, b);
    assert BlankLen(['{'] + (x + b)) == 0;
    EndsCons('{', x + b);
    EndsUnfold(s);
  }

  lemma EndsUnfold(b: string)
    requires BlankLen(b) > 0
    ensures EndsInBlank(b) <==> Stops(b[BlankLen(b)..]) || EndsInBlank(b[1..])
  {
  }

  /** The draft ends with a blank exactly when the message ends with a field or a blank. */
  lemma {:induction false} EndsIff(s: string, order: seq<string>)
    ensures EndsInBlank(Convert(s, order).body) <==> EndsInPiece(s)
    decreases |s|
  {
    hide Convert, MergeAt, BlankLen, IndexOf, Register, EndsInBlank, Stops;
    if s == "" {
      ConvertNothing(order);
      NothingEnds();
    } else if MergeAt(s).Merge? {
      ConvertStep(s, order);
      var m := MergeAt(s);
      var order' := Register(order, m.key);
      EndsIff(s[m.len..], order');
      StopsIff(s[m.len..], order');
      EndsBlank(Dec(IndexOf(order', m.key) + 1), Convert(s[m.len..], order').body);
    } else if BlankLen(s) > 0 {
      var n := BlankLen(s);
      LiteralCarried(s, order);
      EndsIff(s[n..], order);
      StopsIff(s[n..], order);
      BlankParts(s);
      EndsBlank(s[2..n - 2], Convert(s[n..], order).body);
    } else {
      ConvertStep(s, order);
      NoNewBlank(s, order);
      EndsIff(s[1..], order);
      EndsCons(s[0], Convert(s[1..], order).body);
    }
  }

  lemma NothingEnds()
    ensures !EndsInBlank("")
  {
  }

  // ---------------------------------------------------------------- the fields of a message

  /** The merge fields of a message, their names lower-cased. */
  function FieldKeys(s: string): set<string>
    decreases |s|
  {
    if s == "" then {}
    else
      match MergeAt(s)
      case Merge(len, key) => {key} + FieldKeys(s[len..])
      case NoMerge => FieldKeys(s[1..])
  }

  /** The recorded fields are those of the message. */
  lemma {:induction false} OrderIsFields(s: string, order: seq<string>)
    ensures forall k :: k in Convert(s, order).order <==> k in order || k in FieldKeys(s)
    decreases |s|
  {
    hide MergeAt;
    if s != "" {
      match MergeAt(s)
      case Merge(len, key) => OrderIsFields(s[len..], Register(order, key));
      case NoMerge => OrderIsFields(s[1..], order);
    }
  }

  lemma {:induction false} UnknownMeans(order: seq<string>)
    ensures forall k :: k in Unknown(order) <==> k in order && !Known(k)
  {
    hide Known;
    if order != [] {
      UnknownMeans(order[1..]);
      Uncons(order);
    }
  }

  /** The problems found in a message are exactly these. */
  lemma ProblemsMean(plain: string)
    ensures var problems := ProblemsOf(Convert(plain, []));
            && (NothingWritten in problems <==> plain == "")
            && (StartsWithField in problems <==> StartsWithPiece(plain))
            && (EndsWithField in problems <==> EndsInPiece(plain))
            && (forall k :: (exists keys :: UnknownFields(keys) in problems && k in keys)
                            <==> k in FieldKeys(plain) && !Known(k))
            && (problems == [] <==>
                plain != "" && !StartsWithPiece(plain) && !EndsInPiece(plain)
                && forall k :: k in FieldKeys(plain) ==> Known(k))
  {
    hide Convert, MergeAt, BlankLen, EndsInBlank, EndsInPiece, StartsWithPiece, Unknown, FieldKeys, Known;
    var draft := Convert(plain, []);
    ConvertHead(plain, []);
    StartsIff(plain, []);
    EndsIff(plain, []);
    OrderIsFields(plain, []);
    UnknownMeans(draft.order);
    var unknown := Unknown(draft.order);
    if unknown != [] {
      assert unknown[0] in unknown;
      assert UnknownFields(unknown) in ProblemsOf(draft);
    }
  }
}
