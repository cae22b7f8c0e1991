/** Which merge fields `toMetaTemplate` finds in a message, under which names, and what it sends for them. */
module MetaFields {
  import opened Seqs
  import opened Text
  import opened Options
  import Template
  import opened MetaTemplate

  /** `key` is `name` with A-Z turned into a-z, letter by letter, and nothing else changed. */
  ghost predicate IsLowered(name: string, key: string) {
    |key| == |name| && forall k :: 0 <= k < |name| ==>
      if 'A' <= name[k] <= 'Z' then key[k] as int - 'a' as int == name[k] as int - 'A' as int
      else key[k] == name[k]
  }

  ghost predicate IsField(before: string, name: string, after: string) {
    && Template.All(before, IsSpace) && Template.All(after, IsSpace) && name != ""
    && forall k :: 0 <= k < |name| ==> 'a' <= name[k] <= 'z' || 'A' <= name[k] <= 'Z' || name[k] == '_'
  }

  lemma LoweredName(name: string)
    ensures IsLowered(name, LowerAll(name))
  {
    forall k | 0 <= k < |name| && 'A' <= name[k] <= 'Z'
      ensures LowerAll(name)[k] as int - 'a' as int == name[k] as int - 'A' as int
    {
      assert LowerAll(name)[k] as int == name[k] as int + 32;
    }
  }

  /** A merge field is matched in full, whatever follows, and its key is its own name in lower case; */
  lemma MergeMatches(before: string, name: string, after: string, rest: string)
    requires IsField(before, name, after)
    ensures var f := Template.Braced(before, name, after); var m := MergeAt(f + rest);
            m.Merge? && m.len == |f| && (f + rest)[m.len..] == rest && IsLowered(name, m.key)
  {
    hide *;
    var u3 := "}}" + rest;
    var u2 := after + u3;
    var u1 := name + u2;
    var f := Template.Braced(before, name, after);
    Template.BracedThen(before, name, after, rest);
    Template.Suffixes(before, name, after, u3);
    FieldRuns(before, name, after, rest);
    var s := "{{" + (before + u1);
    assert s == f + rest;
    MergeFrom(s, |before|, |name|, |after|);
    NameIn(before, name, u2);
    LoweredName(name);
    Parts(f, rest);
  }

  lemma FieldRuns(before: string, name: string, after: string, rest: string)
    requires IsField(before, name, after)
    ensures var u2 := after + ("}}" + rest);
            && Run(before + (name + u2), IsSpace) == |before|
            && Run(name + u2, IsFieldChar) == |name|
            && Run(u2, IsSpace) == |after| && name != ""
  {
    hide Run;
    var u3 := "}}" + rest;
    assert after + u3 != "" && ((after + u3)[0] == '}' || IsSpace((after + u3)[0]));
    RunEnds(before, name + (after + u3), IsSpace);
    RunEnds(name, after + u3, IsFieldChar);
    RunEnds(after, u3, IsSpace);
  }

  lemma NameIn(before: string, name: string, rest: string)
    ensures ("{{" + (before + (name + rest)))[2 + |before|..2 + |before| + |name|] == name
  {
  }

  lemma MergeFrom(s: string, i: nat, j: nat, k: nat)
    requires 2 + i + j + k + 2 <= |s| && s[0] == '{' && s[1] == '{' && j > 0
    requires Run(s[2..], IsSpace) == i && Run(s[2 + i..], IsFieldChar) == j && Run(s[2 + i + j..], IsSpace) == k
    requires "}}" <= s[2 + i + j + k..]
    ensures MergeAt(s) == Merge(2 + i + j + k + 2, LowerAll(s[2 + i..2 + i + j]))
  {
    hide Run, LowerAll;
    var c := 2 + i + j + k;
    assert s[c..][0] == s[c] && s[c..][1] == s[c + 1];
  }

  /** and nothing else is matched. */
  lemma MergeShape(s: string) returns (before: string, name: string, after: string)
    requires MergeAt(s).Merge?
    ensures IsField(before, name, after) && IsLowered(name, MergeAt(s).key)
    ensures s[..MergeAt(s).len] == Template.Braced(before, name, after)
  {
    hide Run, MergeAt, IsLowered;
    MergeParts(s);
    var i := Run(s[2..], IsSpace);
    var j := Run(s[2 + i..], IsFieldChar);
    var k := Run(s[2 + i + j..], IsSpace);
    Template.FromParts(s, i, j, k);
    before, name, after := s[2..][..i], s[2 + i..][..j], s[2 + i + j..][..k];
    assert s[2 + i..2 + i + j] == name;
    LoweredName(name);
  }

  lemma MergeParts(s: string)
    requires MergeAt(s).Merge?
    ensures var i := Run(s[2..], IsSpace); var j := Run(s[2 + i..], IsFieldChar);
            var k := Run(s[2 + i + j..], IsSpace); var c := 2 + i + j + k;
            && j > 0 && c + 2 <= |s| && s[..2] == "{{" && s[c..][..2] == "}}"
            && MergeAt(s) == Merge(c + 2, LowerAll(s[2 + i..2 + i + j]))
  {
    hide Run, LowerAll;
  }

  // ---------------------------------------------------------------- what is sent and shown for a field

  /** A key as the conversion records it. */
  ghost predicate IsKey(key: string) {
    key != "" && forall k :: 0 <= k < |key| ==> 'a' <= key[k] <= 'z' || key[k] == '_'
  }

  lemma LoweredIsKey(before: string, name: string, after: string, key: string)
    requires IsField(before, name, after) && IsLowered(name, key)
    ensures IsKey(key)
  {
    forall k | 0 <= k < |key| ensures 'a' <= key[k] <= 'z' || key[k] == '_' {
      assert 'a' <= name[k] <= 'z' || 'A' <= name[k] <= 'Z' || name[k] == '_';
    }
  }

  lemma {:induction false} RecordedAreKeys(s: string, order: seq<string>)
    requires forall key :: key in order ==> IsKey(key)
    ensures forall key :: key in Convert(s, order).order ==> IsKey(key)
    decreases |s|
  {
    hide Convert, MergeAt, IsKey, IsField, IsLowered;
    if s == "" {
      ConvertNothing(order);
    } else {
      ConvertStep(s, order);
      if MergeAt(s).Merge? {
        var before, name, after := MergeShape(s);
        LoweredIsKey(before, name, after, MergeAt(s).key);
        RecordedAreKeys(s[MergeAt(s).len..], Register(order, MergeAt(s).key));
      } else {
        RecordedAreKeys(s[1..], order);
      }
    }
  }

  lemma KeyIsItself(key: string, lowered: string)
    requires IsKey(key) && IsLowered(key, lowered)
    ensures lowered == key
  {
    assert forall k :: 0 <= k < |key| ==> lowered[k] == key[k];
  }

  lemma FieldOfKey(key: string)
    requires IsKey(key)
    ensures IsField("", key, "") && Template.Braced("", key, "") == "{{" + key + "}}"
  {
    Assoc("{{", key, "}}");
  }

  /** Each parameter of a draft is the merge field of its key, and would be found under that key again. */
  lemma ParamsAreFields(plain: string, i: nat)
    requires i < |Convert(plain, []).order|
    ensures var key := Convert(plain, []).order[i]; var param := ParamsOf(Convert(plain, []).order)[i];
            && IsKey(key) && param == "{{" + key + "}}"
            && MergeAt(param).Merge? && MergeAt(param).len == |param| && MergeAt(param).key == key
  {
    hide Convert, MergeAt, IsKey, IsField, IsLowered;
    RecordedAreKeys(plain, []);
    var key := Convert(plain, []).order[i];
    FieldOfKey(key);
    var f := Template.Braced("", key, "");
    MergeMatches("", key, "", "");
    assert f + "" == f;
    KeyIsItself(key, MergeAt(f).key);
  }

  /** The samples: the context's own value where there is one, else one per known field, else a stopgap. */
  lemma SamplesMean(key: string, product: Option<string>, campaign: Option<string>)
    ensures var x := ExampleOf(key, product, campaign);
            && (x == NoText <==> key == "constructor" || key == "__proto__")
            && (key == "product" ==> x.text == if product.Some? && Trim(product.value) != ""
                                               then Trim(product.value) else "Heritage tour")
            && (key == "campaign_name" ==> x.text == if campaign.Some? && Trim(campaign.value) != ""
                                                     then Trim(campaign.value) else "Kerala heritage")
            && (key == "contact_name" ==> x == Sample("Asha"))
            && (key == "company_name" ==> x == Sample("Hill Palace Tours"))
            && (key == "city" ==> x == Sample("Kochi")) && (key == "district" ==> x == Sample("Ernakulam"))
            && (key == "state" ==> x == Sample("Kerala")) && (key == "country" ==> x == Sample("India"))
            && (!Known(key) ==> x == Sample("Example"))
    ensures Known(key) <==> key in {"contact_name", "company_name", "city", "district", "state", "country",
                                    "product", "campaign_name", "constructor", "__proto__"}
  {
    hide Trim;
    assert key == "product" ==> key != "campaign_name" && key != "constructor" && key != "__proto__";
  }
}
