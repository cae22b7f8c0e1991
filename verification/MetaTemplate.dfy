/** `toMetaTemplate`: named merge fields become numbered blanks, and back. */
module MetaTemplate {
  import opened Seqs
  import opened Text
  import opened Options
  import opened Preview

  // ---------------------------------------------------------------- the source's patterns

  /** `[a-z_]` under the `i` flag. */
  predicate IsFieldChar(c: char) {
    'a' <= c <= 'z' || 'A' <= c <= 'Z' || c == '_'
  }

  function Lower(c: char): (l: char)
    ensures IsFieldChar(c) ==> IsFieldChar(l)
  {
    if 'A' <= c <= 'Z' then (c as int + 32) as char else c
  }

  /** `toLowerCase()` on a field name. */
  function LowerAll(s: string): (l: string)
    ensures |l| == |s| && forall k :: 0 <= k < |s| ==> l[k] == Lower(s[k])
  {
    seq(|s|, k requires 0 <= k < |s| => Lower(s[k]))
  }

  datatype Merge = NoMerge | Merge(len: nat, key: string)

  lemma MergeName(s: string, a: nat, b: nat)
    requires 2 <= a < b <= |s| && a - 2 <= Run(s[2..], IsSpace) && b - a <= Run(s[a..], IsFieldChar)
    ensures !IsDigit(s[2]) && s[2] != '{' && s[2] != '}'
    ensures var key := LowerAll(s[a..b]); key != "" && forall k :: 0 <= k < |key| ==> IsFieldChar(key[k])
  {
    hide Run, Lower;
    assert a > 2 ==> s[2] == s[2..][0];
    assert s[a] == s[a..][0];
    forall k | a <= k < b ensures IsFieldChar(s[k]) {
      assert s[k] == s[a..][k - a];
    }
  }

  /** The match of `\{\{\s*([a-z_]+)\s*\}\}` (case-insensitive) at the head of `s`. */
  function MergeAt(s: string): (m: Merge)
    ensures m.Merge? ==> 5 <= m.len <= |s| && s[0] == '{' && s[1] == '{'
    ensures m.Merge? ==> m.key != "" && forall k :: 0 <= k < |m.key| ==> IsFieldChar(m.key[k])
    ensures m.Merge? ==> !IsDigit(s[2]) && s[2] != '{' && s[2] != '}'
  {
    if |s| < 2 || s[0] != '{' || s[1] != '{' then NoMerge
    else
      var a := 2 + Run(s[2..], IsSpace);
      var b := a + Run(s[a..], IsFieldChar);
      var c := b + Run(s[b..], IsSpace);
      if a < b && c + 2 <= |s| && s[c] == '}' && s[c + 1] == '}' then
        MergeName(s, a, b);
        Merge(c + 2, LowerAll(s[a..b]))
      else NoMerge
  }

  /** Length of the match of `\{\{\d+\}\}` at the head of `s`, or 0. */
  function BlankLen(s: string): (n: nat)
    ensures n <= |s|
    ensures n > 0 ==> n >= 5 && forall k :: 2 <= k < n - 2 ==> IsDigit(s[k])
    ensures n > 0 ==> s[0] == '{' && s[1] == '{' && s[n - 2] == '}' && s[n - 1] == '}'
  {
    if |s| < 2 || s[0] != '{' || s[1] != '{' then 0
    else
      var d := Run(s[2..], IsDigit);
      assert forall k :: 2 <= k < d + 2 ==> s[k] == s[2..][k - 2];
      if d > 0 && d + 4 <= |s| && s[d + 2] == '}' && s[d + 3] == '}' then d + 4 else 0
  }

  function Field(key: string): string {
    "{{" + key + "}}"
  }

  function Blank(i: nat): string {
    "{{" + Dec(i) + "}}"
  }

  // ---------------------------------------------------------------- the conversion

  function IndexOf(order: seq<string>, key: string): (i: nat)
    requires key in order
    ensures i < |order| && order[i] == key
    ensures forall j :: 0 <= j < i ==> order[j] != key
  {
    if order[0] == key then 0 else 1 + IndexOf(order[1..], key)
  }

  function Register(order: seq<string>, key: string): (order': seq<string>)
    ensures key in order'
  {
    if key in order then order else order + [key]
  }

  datatype Draft = Draft(body: string, order: seq<string>)

  /** The global replace with its callback, `order` being the fields seen so far. */
  function Convert(s: string, order: seq<string>): Draft
    decreases |s|
  {
    if s == "" then Draft("", order)
    else
      match MergeAt(s)
      case Merge(len, key) =>
        var order' := Register(order, key);
        var rest := Convert(s[len..], order');
        Draft(Blank(IndexOf(order', key) + 1) + rest.body, rest.order)
      case NoMerge =>
        var rest := Convert(s[1..], order);
        Draft([s[0]] + rest.body, rest.order)
  }

  /** `params`: the placeholder to send for each blank. */
  function ParamsOf(order: seq<string>): (params: seq<string>)
    ensures |params| == |order| && forall i :: 0 <= i < |order| ==> params[i] == Field(order[i])
  {
    seq(|order|, i requires 0 <= i < |order| => Field(order[i]))
  }

  // ---------------------------------------------------------------- samples and problems

  const SAMPLES: map<string, string> := map[
    "contact_name" := "Asha", "company_name" := "Hill Palace Tours", "city" := "Kochi",
    "district" := "Ernakulam", "state" := "Kerala", "country" := "India",
    "product" := "Heritage tour", "campaign_name" := "Kerala heritage"]

  /** Names in `[a-z_]+` that every JavaScript object inherits. */
  const INHERITED := {"constructor", "__proto__"}

  /** `key in SAMPLE_VALUES`. */
  predicate Known(key: string) {
    key in SAMPLES || key in INHERITED
  }

  /** A sample for a reviewer; an inherited property is no text. */
  datatype Example = Sample(text: string) | NoText

  function ExampleOf(key: string, product: Option<string>, campaign: Option<string>): Example {
    if key == "product" && product.Some? && Trim(product.value) != "" then Sample(Trim(product.value))
    else if key == "campaign_name" && campaign.Some? && Trim(campaign.value) != "" then Sample(Trim(campaign.value))
    else if key in SAMPLES then Sample(SAMPLES[key])
    else if key in INHERITED then NoText
    else Sample("Example")
  }

  datatype Problem = NothingWritten | StartsWithField | EndsWithField | UnknownFields(keys: seq<string>)

  /** `[\s.!?,]`. */
  predicate IsStop(c: char) {
    IsSpace(c) || c == '.' || c == '!' || c == '?' || c == ','
  }

  predicate Stops(s: string) {
    forall k :: 0 <= k < |s| ==> IsStop(s[k])
  }

  /** The pattern `\{\{\d+\}\}[\s.!?,]*$` matches somewhere in `b`. */
  predicate EndsInBlank(b: string) {
    b != "" && ((BlankLen(b) > 0 && Stops(b[BlankLen(b)..])) || EndsInBlank(b[1..]))
  }

  /** `order.filter((k) => !(k in SAMPLE_VALUES))`. */
  function Unknown(order: seq<string>): seq<string> {
    if order == [] then []
    else (if Known(order[0]) then [] else [order[0]]) + Unknown(order[1..])
  }

  function ProblemsOf(draft: Draft): seq<Problem> {
    (if draft.body == "" then [NothingWritten] else [])
    + (if BlankLen(draft.body) > 0 then [StartsWithField] else [])
    + (if EndsInBlank(draft.body) then [EndsWithField] else [])
    + (if Unknown(draft.order) != [] then [UnknownFields(Unknown(draft.order))] else [])
  }

  method ToMetaTemplate(message: string, product: Option<string>, campaign: Option<string>)
    returns (body: string, params: seq<string>, examples: seq<Example>, problems: seq<Problem>)
    ensures var draft := Convert(Trim(Collapse(message, PASSES)), []);
            && body == draft.body && params == ParamsOf(draft.order)
            && |examples| == |params|
            && (forall i :: 0 <= i < |examples| ==> examples[i] == ExampleOf(draft.order[i], product, campaign))
            && problems == ProblemsOf(draft)
  {
    hide Convert, Trim, Collapse, MergeAt, Blank, IndexOf, Register, ExampleOf, BlankLen, EndsInBlank, Unknown;
    var plain := FirstSpintaxVariant(message);
    plain := Trim(plain);
    var order := [];
    body := "";
    var pos := 0;
    assert plain[0..] == plain;
    while pos < |plain|
      invariant 0 <= pos <= |plain|
      invariant body + Convert(plain[pos..], order).body == Convert(plain, []).body
      invariant Convert(plain[pos..], order).order == Convert(plain, []).order
    {
      var s := plain[pos..];
      ConvertStep(s, order);
      ghost var before := body;
      match MergeAt(s) {
        case Merge(len, key) =>
          assert s[len..] == plain[pos + len..];
          order := Register(order, key);
          body := body + Blank(IndexOf(order, key) + 1);
          pos := pos + len;
          Assoc(before, Blank(IndexOf(order, key) + 1), Convert(s[len..], order).body);
        case NoMerge =>
          assert s[1..] == plain[pos + 1..];
          body := body + [s[0]];
          pos := pos + 1;
          Assoc(before, [s[0]], Convert(s[1..], order).body);
      }
    }
    assert plain[pos..] == "";
    ConvertNothing(order);
    examples := seq(|order|, i requires 0 <= i < |order| => ExampleOf(order[i], product, campaign));
    problems := FindProblems(body, order);
    params := ParamsOf(order);
  }

  /** What Meta would reject. */
  method FindProblems(body: string, order: seq<string>) returns (problems: seq<Problem>)
    ensures problems == ProblemsOf(Draft(body, order))
  {
    hide BlankLen, EndsInBlank, Unknown;
    problems := [];
    if body == "" {
      problems := problems + [NothingWritten];
    }
    if BlankLen(body) > 0 {
      problems := problems + [StartsWithField];
    }
    if EndsInBlank(body) {
      problems := problems + [EndsWithField];
    }
    var unknown := Unknown(order);
    if |unknown| > 0 {
      problems := problems + [UnknownFields(unknown)];
    }
  }

  lemma ConvertNothing(order: seq<string>)
    ensures Convert("", order) == Draft("", order)
  {
  }

  lemma ConvertField(s: string, order: seq<string>)
    requires MergeAt(s).Merge?
    ensures var m := MergeAt(s); var order' := Register(order, m.key); var rest := Convert(s[m.len..], order');
            Convert(s, order) == Draft(Blank(IndexOf(order', m.key) + 1) + rest.body, rest.order)
  {
    hide MergeAt, Blank, IndexOf, Register;
  }

  lemma ConvertChar(s: string, order: seq<string>)
    requires s != "" && MergeAt(s).NoMerge?
    ensures var rest := Convert(s[1..], order); Convert(s, order) == Draft([s[0]] + rest.body, rest.order)
  {
    hide MergeAt, Blank, IndexOf, Register;
  }

  lemma ConvertStep(s: string, order: seq<string>)
    requires s != ""
    ensures MergeAt(s).Merge? ==>
              var m := MergeAt(s); var order' := Register(order, m.key); var rest := Convert(s[m.len..], order');
              Convert(s, order) == Draft(Blank(IndexOf(order', m.key) + 1) + rest.body, rest.order)
    ensures MergeAt(s).NoMerge? ==>
              var rest := Convert(s[1..], order); Convert(s, order) == Draft([s[0]] + rest.body, rest.order)
  {
    hide MergeAt, Blank, IndexOf, Register, Convert;
    if MergeAt(s).Merge? {
      ConvertField(s, order);
    } else {
      ConvertChar(s, order);
    }
  }

  // ---------------------------------------------------------------- filling the blanks

  /** Send time: every numbered blank that has a parameter is replaced by it. */
  function Fill(s: string, params: seq<string>): string
    decreases |s|
  {
    if s == "" then ""
    else
      var len := BlankLen(s);
      if len > 0 then
        var i := ParseDec(s[2..len - 2]);
        (if 1 <= i <= |params| then params[i - 1] else s[..len]) + Fill(s[len..], params)
      else [s[0]] + Fill(s[1..], params)
  }

  /** The message with every merge-field name trimmed and lower-cased. */
  function Normalize(s: string): string
    decreases |s|
  {
    if s == "" then ""
    else
      match MergeAt(s)
      case Merge(len, key) => Field(key) + Normalize(s[len..])
      case NoMerge => [s[0]] + Normalize(s[1..])
  }

  /** The message itself contains no numbered blank between 1 and `n`. */
  predicate NoLiteralBlank(s: string, n: nat)
    decreases |s|
  {
    if s == "" then true
    else if MergeAt(s).Merge? then NoLiteralBlank(s[MergeAt(s).len..], n)
    else if BlankLen(s) > 0 then
      !(1 <= ParseDec(s[2..BlankLen(s) - 2]) <= n) && NoLiteralBlank(s[BlankLen(s)..], n)
    else NoLiteralBlank(s[1..], n)
  }

  // ---------------------------------------------------------------- the order of fields

  ghost predicate Distinct(order: seq<string>) {
    forall i, j :: 0 <= i < j < |order| ==> order[i] != order[j]
  }

  /** The order only grows, and never repeats a field. */
  lemma {:induction false} ConvertOrder(s: string, order: seq<string>)
    requires Distinct(order)
    ensures Distinct(Convert(s, order).order) && order <= Convert(s, order).order
    decreases |s|
  {
    if s != "" {
      match MergeAt(s)
      case Merge(len, key) => ConvertOrder(s[len..], Register(order, key));
      case NoMerge => ConvertOrder(s[1..], order);
    }
  }

  /** The numbers that stand for the message's fields, from left to right. */
  function Blanks(s: string, order: seq<string>): seq<nat>
    decreases |s|
  {
    if s == "" then []
    else
      match MergeAt(s)
      case Merge(len, key) =>
        var order' := Register(order, key);
        [IndexOf(order', key) + 1] + Blanks(s[len..], order')
      case NoMerge => Blanks(if BlankLen(s) > 0 then s[BlankLen(s)..] else s[1..], order)
  }

  /** The numbered blanks of a text, from left to right. */
  function Numbered(b: string): seq<nat>
    decreases |b|
  {
    if b == "" then []
    else
      var len := BlankLen(b);
      if len > 0 then [ParseDec(b[2..len - 2])] + Numbered(b[len..]) else Numbered(b[1..])
  }

  /** How many numbered blanks the message itself contains. */
  function Literals(s: string): nat
    decreases |s|
  {
    if s == "" then 0
    else if MergeAt(s).Merge? then Literals(s[MergeAt(s).len..])
    else if BlankLen(s) > 0 then 1 + Literals(s[BlankLen(s)..])
    else Literals(s[1..])
  }

  /** Starting after `m` blanks, each blank was used before or is the next number; `n` in the end. */
  predicate FirstUse(blanks: seq<nat>, m: nat, n: nat) {
    if blanks == [] then m == n
    else 1 <= blanks[0] <= m + 1 && FirstUse(blanks[1..], if blanks[0] == m + 1 then m + 1 else m, n)
  }

  /** So every number from 1 to n is used, and 1..k are all used before k + 1 is. */
  lemma {:induction false} FirstUseMeans(blanks: seq<nat>, m: nat, n: nat, k: nat)
    requires FirstUse(blanks, m, n) && m < k <= n
    ensures m <= n
    ensures exists i :: 0 <= i < |blanks| && blanks[i] == k && forall j :: 0 <= j < i ==> blanks[j] < k
  {
    if blanks != [] {
      var rest := blanks[1..];
      FirstUseGrows(rest, if blanks[0] == m + 1 then m + 1 else m, n);
      if blanks[0] == m + 1 && k == m + 1 {
        assert blanks[0] == k;
      } else {
        FirstUseMeans(rest, if blanks[0] == m + 1 then m + 1 else m, n, k);
        var i :| 0 <= i < |rest| && rest[i] == k && forall j :: 0 <= j < i ==> rest[j] < k;
        assert blanks[i + 1] == k;
        assert forall j :: 0 < j < i + 1 ==> blanks[j] == rest[j - 1];
      }
    }
  }

  lemma {:induction false} FirstUseGrows(blanks: seq<nat>, m: nat, n: nat)
    requires FirstUse(blanks, m, n)
    ensures m <= n
  {
    if blanks != [] {
      FirstUseGrows(blanks[1..], if blanks[0] == m + 1 then m + 1 else m, n);
    }
  }

  // ---------------------------------------------------------------- reading the body back

  lemma BlankHead(i: nat, rest: string)
    ensures BlankLen(Blank(i) + rest) == |Blank(i)| > 0
    ensures ParseDec((Blank(i) + rest)[2..|Blank(i)| - 2]) == i
    ensures (Blank(i) + rest)[|Blank(i)|..] == rest
  {
    hide Dec, ParseDec, Run;
    var s := Blank(i) + rest;
    assert s[2..] == Dec(i) + ("}}" + rest);
    RunEnds(Dec(i), "}}" + rest, IsDigit);
    assert s[2..|Blank(i)| - 2] == Dec(i);
    ParseDecInvertsDec(i);
  }

  lemma FillBlank(i: nat, rest: string, params: seq<string>)
    requires 1 <= i <= |params|
    ensures Fill(Blank(i) + rest, params) == params[i - 1] + Fill(rest, params)
  {
    hide ParseDec, BlankLen, Blank, Fill;
    BlankHead(i, rest);
    FillKnown(Blank(i) + rest, |Blank(i)|, i, rest, params);
  }

  lemma FillKnown(s: string, len: nat, i: nat, rest: string, params: seq<string>)
    requires BlankLen(s) == len > 0 && ParseDec(s[2..len - 2]) == i && s[len..] == rest && 1 <= i <= |params|
    ensures Fill(s, params) == params[i - 1] + Fill(rest, params)
  {
    hide BlankLen, ParseDec;
  }

  lemma FillAt(s: string, params: seq<string>)
    requires BlankLen(s) > 0
    ensures var len := BlankLen(s); var i := ParseDec(s[2..len - 2]);
            Fill(s, params) == (if 1 <= i <= |params| then params[i - 1] else s[..len]) + Fill(s[len..], params)
  {
    hide BlankLen, ParseDec;
  }

  /** The conversion copies a prefix that holds no opening brace. */
  lemma {:induction false} ConvertCopies(x: string, y: string, order: seq<string>)
    requires '{' !in x
    ensures Convert(x + y, order).body == x + Convert(y, order).body
    ensures Convert(x + y, order).order == Convert(y, order).order
  {
    hide Convert, MergeAt;
    if x == "" {
      assert x + y == y;
    } else {
      assert (x + y)[1..] == x[1..] + y;
      ConvertCopies(x[1..], y, order);
      ConvertStep(x + y, order);
      Assoc([x[0]], x[1..], Convert(y, order).body);
      assert [x[0]] + x[1..] == x;
    }
  }

  /** Away from a field, the body starts like the message, or with a brace. */
  lemma ConvertHead(s: string, order: seq<string>)
    ensures var b := Convert(s, order).body;
            && (s == "" <==> b == "")
            && (s != "" ==> b[0] == s[0])
            && (MergeAt(s).Merge? ==> |b| > 2 && b[1] == '{' && IsDigit(b[2]))
  {
    hide Convert, Dec, IndexOf, Register, Run;
    if s == "" {
      ConvertNothing(order);
    } else {
      ConvertStep(s, order);
    }
  }

  /** A literal blank in the message is carried into the body unchanged. */
  lemma LiteralCarried(s: string, order: seq<string>)
    requires BlankLen(s) > 0
    ensures var n := BlankLen(s);
            && MergeAt(s).NoMerge?
            && Convert(s, order).body == s[..n] + Convert(s[n..], order).body
            && Convert(s, order).order == Convert(s[n..], order).order
  {
    hide Convert;
    var n := BlankLen(s);
    hide MergeAt, BlankLen;
    ConvertStep(s, order);
    var t := s[1..];
    ConvertStep(t, order);
    var x := s[2..n];
    assert t[1..] == x + s[n..];
    ConvertCopies(x, s[n..], order);
    Assoc([s[1]], x, Convert(s[n..], order).body);
    Assoc([s[0]], [s[1]] + x, Convert(s[n..], order).body);
    assert [s[0]] + ([s[1]] + x) == s[..n];
  }

  /** No blank comes into being where the message has neither field nor blank. */
  lemma NoNewBlank(s: string, order: seq<string>)
    requires s != "" && MergeAt(s).NoMerge? && BlankLen(s) == 0
    ensures BlankLen(Convert(s, order).body) == 0
  {
    hide Convert;
    ConvertStep(s, order);
    var b := Convert(s, order).body;
    if s[0] == '{' && |s| > 1 {
      var t := s[1..];
      ConvertHead(t, order);
      if s[1] == '{' && MergeAt(t).NoMerge? {
        ConvertStep(t, order);
        NoBlankInside(s, order, b);
      }
    } else if |s| == 1 {
      ConvertHead(s[1..], order);
    }
  }

  /** The remaining case: two opening braces, then digits or not, but no complete blank. */
  lemma NoBlankInside(s: string, order: seq<string>, b: string)
    requires |s| >= 2 && s[0] == '{' && s[1] == '{' && BlankLen(s) == 0
    requires b == ['{'] + (['{'] + Convert(s[1..][1..], order).body)
    ensures BlankLen(b) == 0
  {
    hide Convert, MergeAt;
    var u := s[2..];
    assert s[1..][1..] == u;
    var d := Run(u, IsDigit);
    var x, y := u[..d], u[d..];
    assert u == x + y;
    ConvertCopies(x, y, order);
    ConvertHead(y, order);
    var v := Convert(y, order).body;
    assert b[2..] == x + v;
    RunEnds(x, v, IsDigit);
    if y != "" && y[0] == '}' {
      ConvertStep(y, order);
      ConvertHead(y[1..], order);
      assert v[1..] == Convert(y[1..], order).body;
      assert |y| > 1 ==> y[1] == s[d + 3];
    }
  }

  // ---------------------------------------------------------------- the theorem

  lemma FillStep(b: string, rest: string, c: char, params: seq<string>)
    requires b == [c] + rest && BlankLen(b) == 0
    ensures Fill(b, params) == [c] + Fill(rest, params)
  {
    assert b[1..] == rest;
  }

  /** A literal blank in range comes back as a field, which differs from it in its third character. */
  lemma FillLiteral(s: string, rest: string, params: seq<string>)
    requires BlankLen(s) == |s| > 0
    ensures BlankLen(s + rest) == |s|
    ensures var i := ParseDec(s[2..|s| - 2]);
            Fill(s + rest, params) == (if 1 <= i <= |params| then params[i - 1] else s) + Fill(rest, params)
  {
    hide ParseDec, BlankLen, Fill, Run;
    var digits := s[2..|s| - 2];
    BlankParts(s);
    assert s[..|s|] == s;
    BlankExtends(digits, rest);
    Reopen(digits, rest);
    FillAt(s + rest, params);
    Parts(s, rest);
  }

  lemma BlankParts(s: string)
    requires BlankLen(s) > 0
    ensures var n := BlankLen(s); var digits := s[2..n - 2];
            s[..n] == "{{" + digits + "}}" && digits != "" && forall k :: 0 <= k < |digits| ==> IsDigit(digits[k])
  {
  }

  lemma Reopen(digits: string, rest: string)
    ensures var s := "{{" + digits + "}}"; (s + rest)[2..|s| - 2] == digits
  {
  }

  lemma BlankExtends(digits: string, rest: string)
    requires digits != "" && forall k :: 0 <= k < |digits| ==> IsDigit(digits[k])
    ensures BlankLen("{{" + digits + "}}" + rest) == |digits| + 4
  {
    hide Run;
    var s := "{{" + digits + "}}" + rest;
    Assoc("{{" + digits, "}}", rest);
    Assoc("{{", digits, "}}" + rest);
    Parts("{{", digits + ("}}" + rest));
    RunEnds(digits, "}}" + rest, IsDigit);
  }

  lemma BlankPrefix(s: string)
    requires BlankLen(s) > 0
    ensures BlankLen(s[..BlankLen(s)]) == BlankLen(s)
  {
    hide BlankLen;
    var digits := s[2..BlankLen(s) - 2];
    BlankParts(s);
    BlankExtends(digits, "");
    assert "{{" + digits + "}}" + "" == "{{" + digits + "}}";
  }

  lemma {:induction false} NormalizeLiteral(x: string, y: string)
    requires forall i :: 0 <= i < |x| ==> MergeAt(x[i..] + y).NoMerge?
    ensures Normalize(x + y) == x + Normalize(y)
  {
    hide MergeAt;
    if x == "" {
      assert x + y == y;
    } else {
      assert x[0..] == x;
      assert (x + y)[1..] == x[1..] + y;
      forall i | 0 <= i < |x[1..]| ensures MergeAt(x[1..][i..] + y).NoMerge? {
        assert x[1..][i..] == x[i + 1..];
      }
      NormalizeLiteral(x[1..], y);
      Assoc([x[0]], x[1..], Normalize(y));
      assert [x[0]] + x[1..] == x;
    }
  }

  lemma LiteralNormal(s: string)
    requires BlankLen(s) > 0
    ensures Normalize(s) == s[..BlankLen(s)] + Normalize(s[BlankLen(s)..])
  {
    var n := BlankLen(s);
    var x, y := s[..n], s[n..];
    assert s == x + y;
    forall i | 0 <= i < n ensures MergeAt(x[i..] + y).NoMerge? {
      assert x[i..] + y == s[i..];
      assert s[i] == s[i..][0];
      if i <= 1 {
        assert s[i + 1] == s[i..][1];
        assert IsDigit(s[2]) && (i == 0 ==> s[i..][2] == s[2]);
      }
    }
    NormalizeLiteral(x, y);
  }

  lemma FieldIsNoBlank(key: string, blank: string, x: string, y: string)
    requires key != "" && IsFieldChar(key[0]) && BlankLen(blank) == |blank| > 0
    ensures Field(key) + x != blank + y
  {
    assert (Field(key) + x)[2] == key[0];
    assert (blank + y)[2] == blank[2];
  }

  // ---------------------------------------------------------------- the blanks of the body

  lemma NumberedBlank(b: string, len: nat, i: nat, rest: string)
    requires BlankLen(b) == len > 0 && ParseDec(b[2..len - 2]) == i && b[len..] == rest
    ensures Numbered(b) == [i] + Numbered(rest)
  {
  }

  lemma NumberedChar(b: string, c: char, rest: string)
    requires b == [c] + rest && BlankLen(b) == 0
    ensures Numbered(b) == Numbered(rest)
  {
    assert b[1..] == rest;
  }

  /** A literal blank carried into the body is read there with its own number. */
  lemma NumberedLiteral(s: string, order: seq<string>)
    requires BlankLen(s) > 0
    ensures var n := BlankLen(s);
            Numbered(Convert(s, order).body) == [ParseDec(s[2..n - 2])] + Numbered(Convert(s[n..], order).body)
  {
    hide Convert, MergeAt, BlankLen, ParseDec, Fill, Numbered;
    var n := BlankLen(s);
    var rest := Convert(s[n..], order).body;
    LiteralCarried(s, order);
    BlankPrefix(s);
    FillLiteral(s[..n], rest, []);
    assert (s[..n] + rest)[n..] == rest;
    assert (s[..n] + rest)[2..n - 2] == s[2..n - 2];
    NumberedBlank(s[..n] + rest, n, ParseDec(s[2..n - 2]), rest);
  }

  lemma NumberedField(s: string, order: seq<string>)
    requires s != "" && MergeAt(s).Merge?
    ensures var m := MergeAt(s); var order' := Register(order, m.key);
            Numbered(Convert(s, order).body)
            == [IndexOf(order', m.key) + 1] + Numbered(Convert(s[m.len..], order').body)
  {
    hide Convert, MergeAt, BlankLen, ParseDec, Numbered, Blank, Register, IndexOf;
    ConvertStep(s, order);
    var m := MergeAt(s);
    var order' := Register(order, m.key);
    var i := IndexOf(order', m.key) + 1;
    var rest := Convert(s[m.len..], order').body;
    BlankHead(i, rest);
    NumberedBlank(Blank(i) + rest, |Blank(i)|, i, rest);
  }

  /**
   * The blanks of the body are the numbers of the message's fields exactly when the message has no
   * numbered blank of its own; otherwise those are read in between.
   */
  lemma {:induction false} BodyBlanks(s: string, order: seq<string>)
    ensures Numbered(Convert(s, order).body) == Blanks(s, order) <==> Literals(s) == 0
    ensures |Numbered(Convert(s, order).body)| == |Blanks(s, order)| + Literals(s)
    decreases |s|
  {
    hide Convert, MergeAt, BlankLen, ParseDec, Numbered, Register, IndexOf;
    if s == "" {
      ConvertNothing(order);
      NumberedNothing();
    } else if MergeAt(s).Merge? {
      var m := MergeAt(s);
      BodyBlanks(s[m.len..], Register(order, m.key));
      NumberedField(s, order);
    } else if BlankLen(s) > 0 {
      BodyBlanks(s[BlankLen(s)..], order);
      NumberedLiteral(s, order);
    } else {
      BodyBlanks(s[1..], order);
      ConvertStep(s, order);
      NoNewBlank(s, order);
      NumberedChar(Convert(s, order).body, s[0], Convert(s[1..], order).body);
    }
  }

  lemma NumberedNothing()
    ensures Numbered("") == []
  {
  }

  lemma {:induction false} FieldsInOrder(s: string, order: seq<string>)
    ensures FirstUse(Blanks(s, order), |order|, |Convert(s, order).order|)
    decreases |s|
  {
    hide MergeAt, BlankLen, Convert;
    if s == "" {
      ConvertNothing(order);
    } else if MergeAt(s).Merge? {
      ConvertStep(s, order);
      var key := MergeAt(s).key;
      var order' := Register(order, key);
      FieldsInOrder(s[MergeAt(s).len..], order');
      if key !in order {
        assert order'[|order|] == key;
        assert IndexOf(order', key) == |order|;
      }
    } else if BlankLen(s) > 0 {
      LiteralCarried(s, order);
      FieldsInOrder(s[BlankLen(s)..], order);
    } else {
      ConvertStep(s, order);
      FieldsInOrder(s[1..], order);
    }
  }

  /** The body's blanks are 1..n in order of first occurrence, n the number of different fields. */
  lemma BlanksInOrder(s: string, order: seq<string>)
    requires Literals(s) == 0
    ensures FirstUse(Numbered(Convert(s, order).body), |order|, |Convert(s, order).order|)
  {
    hide Convert, Numbered, Blanks, FirstUse, Literals;
    BodyBlanks(s, order);
    FieldsInOrder(s, order);
  }

  ghost predicate Keys(order: seq<string>) {
    forall k :: k in order ==> k != "" && IsFieldChar(k[0])
  }

  lemma {:induction false} ConvertKeys(s: string, order: seq<string>)
    requires Keys(order)
    ensures Keys(Convert(s, order).order)
    decreases |s|
  {
    if s != "" {
      match MergeAt(s)
      case Merge(len, key) => ConvertKeys(s[len..], Register(order, key));
      case NoMerge => ConvertKeys(s[1..], order);
    }
  }

  /**
   * Filling the blanks gives the message back, field names trimmed and lower-cased, exactly when the
   * message has no numbered blank of its own in range.
   */
  lemma {:induction false} ConvertInvertible(s: string, order: seq<string>, all: seq<string>)
    requires Distinct(order) && all == Convert(s, order).order && Keys(all)
    ensures Fill(Convert(s, order).body, ParamsOf(all)) == Normalize(s) <==> NoLiteralBlank(s, |all|)
    decreases |s|
  {
    hide Convert, MergeAt, BlankLen, Fill, Register, Field, ParseDec;
    var params := ParamsOf(all);
    if s == "" {
      ConvertNothing(order);
      FillNothing(params);
    } else if MergeAt(s).Merge? {
      InvertField(s, order, all);
      var m := MergeAt(s);
      RegisterDistinct(order, m.key);
      ConvertStep(s, order);
      var rest := s[m.len..];
      ConvertInvertible(rest, Register(order, m.key), all);
      Cancel(Field(m.key), Fill(Convert(rest, Register(order, m.key)).body, params), Normalize(rest));
    } else if BlankLen(s) > 0 {
      var n := BlankLen(s);
      LiteralCarried(s, order);
      ConvertInvertible(s[n..], order, all);
      InvertLiteral(s, order, all);
    } else {
      ConvertStep(s, order);
      NoNewBlank(s, order);
      FillStep(Convert(s, order).body, Convert(s[1..], order).body, s[0], params);
      ConvertInvertible(s[1..], order, all);
      Cancel([s[0]], Fill(Convert(s[1..], order).body, params), Normalize(s[1..]));
    }
  }

  lemma FillNothing(params: seq<string>)
    ensures Fill("", params) == ""
  {
  }

  lemma RegisterDistinct(order: seq<string>, key: string)
    requires Distinct(order)
    ensures Distinct(Register(order, key))
  {
  }

  lemma InvertField(s: string, order: seq<string>, all: seq<string>)
    requires s != "" && Distinct(order) && MergeAt(s).Merge? && all == Convert(s, order).order
    ensures var m := MergeAt(s); var order' := Register(order, m.key);
            Fill(Convert(s, order).body, ParamsOf(all))
            == Field(m.key) + Fill(Convert(s[m.len..], order').body, ParamsOf(all))
  {
    hide Convert, MergeAt, Fill, Field, Register;
    var m := MergeAt(s);
    var order' := Register(order, m.key);
    ConvertStep(s, order);
    RegisterDistinct(order, m.key);
    ConvertOrder(s[m.len..], order');
    var i := IndexOf(order', m.key);
    assert all[i] == m.key;
    FillBlank(i + 1, Convert(s[m.len..], order').body, ParamsOf(all));
  }

  lemma InvertLiteral(s: string, order: seq<string>, all: seq<string>)
    requires BlankLen(s) > 0 && Keys(all)
    requires var n := BlankLen(s); Convert(s, order).body == s[..n] + Convert(s[n..], order).body
    requires var n := BlankLen(s); var i := ParseDec(s[2..n - 2]);
             var tail := Fill(Convert(s[n..], order).body, ParamsOf(all)) == Normalize(s[n..]);
             NoLiteralBlank(s, |all|) <==> !(1 <= i <= |all|) && tail
    ensures Fill(Convert(s, order).body, ParamsOf(all)) == Normalize(s) <==> NoLiteralBlank(s, |all|)
  {
    hide Convert, MergeAt, Fill, BlankLen, Field, ParseDec, NoLiteralBlank, Normalize;
    var n := BlankLen(s);
    var blank := s[..n];
    BlankPrefix(s);
    assert blank[2..n - 2] == s[2..n - 2];
    var rest, params := Convert(s[n..], order).body, ParamsOf(all);
    FillLiteral(blank, rest, params);
    LiteralNormal(s);
    var i := ParseDec(s[2..n - 2]);
    Cancel(blank, Fill(rest, params), Normalize(s[n..]));
    if 1 <= i <= |all| {
      assert all[i - 1] in all;
      FieldIsNoBlank(all[i - 1], blank, Fill(rest, params), Normalize(s[n..]));
    }
  }

  /** The draft of a message: invertible, its parameters distinct, its blanks 1..n by first use. */
  lemma MetaTemplateInvertible(plain: string)
    ensures var draft := Convert(plain, []); var params := ParamsOf(draft.order);
            && (Fill(draft.body, params) == Normalize(plain) <==> NoLiteralBlank(plain, |params|))
            && Distinct(params)
            && (Literals(plain) == 0 ==> FirstUse(Numbered(draft.body), 0, |params|))
  {
    hide Convert, Fill, Normalize, NoLiteralBlank, FirstUse, Literals, Numbered;
    var order := Convert(plain, []).order;
    ConvertOrder(plain, []);
    ConvertKeys(plain, []);
    ConvertInvertible(plain, [], order);
    if Literals(plain) == 0 {
      BlanksInOrder(plain, []);
    }
    forall i, j | 0 <= i < j < |order| ensures Field(order[i]) != Field(order[j]) {
      assert Field(order[i])[2..|order[i]| + 2] == order[i];
      assert Field(order[j])[2..|order[j]| + 2] == order[j];
    }
  }
}
