/** `buildQueries`: the ordered list of searches a collection job works through. */
module CollectionQueries {
  import opened Options
  import opened Seqs
  import opened Text

  datatype Search = Search(
    city: Option<string>, country: Option<string>, categories: seq<string>, category: Option<string>,
    keywords: seq<string>)

  function Present(o: Option<string>): string {
    if o.Some? then o.value else ""
  }

  /** `[city, country].filter(Boolean).join(', ')`. */
  function Where(s: Search): string {
    var city, country := Present(s.city), Present(s.country);
    if city == "" then country else if country == "" then city else city + ", " + country
  }

  function TrimAll(xs: seq<string>): seq<string> {
    if xs == [] then [] else [Trim(xs[0])] + TrimAll(xs[1..])
  }

  function NonEmpty(xs: seq<string>): seq<string> {
    if xs == [] then [] else (if xs[0] == "" then [] else [xs[0]]) + NonEmpty(xs[1..])
  }

  /** Categories, the legacy single column standing in for an empty list, else a default. */
  function Categories(s: Search): seq<string> {
    var listed := if s.categories != [] then s.categories else [Present(s.category)];
    var kept := NonEmpty(TrimAll(listed));
    if kept == [] then ["travel agency"] else kept
  }

  function Terms(s: Search): seq<string> {
    NonEmpty(Categories(s) + TrimAll(s.keywords))
  }

  function Query(term: string, where_: string): string {
    if where_ == "" then term else term + " in " + where_
  }

  function Queries(terms: seq<string>, where_: string): seq<string> {
    if terms == [] then [] else [Query(terms[0], where_)] + Queries(terms[1..], where_)
  }

  /** First occurrences only, comparing by `lower`. */
  function Dedup(qs: seq<string>, seen: set<string>, lower: string -> string): seq<string> {
    if qs == [] then []
    else if lower(qs[0]) in seen then Dedup(qs[1..], seen, lower)
    else [qs[0]] + Dedup(qs[1..], seen + {lower(qs[0])}, lower)
  }

  function Built(s: Search, lower: string -> string): seq<string> {
    Dedup(Queries(Terms(s), Where(s)), {}, lower)
  }

  lemma QueriesCons(term: string, terms: seq<string>, where_: string)
    ensures Queries([term] + terms, where_) == [Query(term, where_)] + Queries(terms, where_)
  {
    assert ([term] + terms)[1..] == terms;
  }

  lemma DedupCons(q: string, qs: seq<string>, seen: set<string>, lower: string -> string)
    ensures Dedup([q] + qs, seen, lower) ==
            if lower(q) in seen then Dedup(qs, seen, lower) else [q] + Dedup(qs, seen + {lower(q)}, lower)
  {
    assert ([q] + qs)[1..] == qs;
  }

  lemma NothingLeft(where_: string, seen: set<string>, lower: string -> string)
    ensures Queries([], where_) == [] && Dedup([], seen, lower) == []
  {
  }

  method BuildQueries(s: Search, lower: string -> string) returns (queries: seq<string>)
    ensures queries == Built(s, lower)
  {
    hide Terms, Where, Query, Queries, Dedup;
    var where_ := Where(s);
    var terms := Terms(s);
    var seen: set<string> := {};
    queries := [];
    ghost var all := Queries(terms, where_);
    assert terms[0..] == terms;
    for i := 0 to |terms|
      invariant queries + Dedup(Queries(terms[i..], where_), seen, lower) == Dedup(all, {}, lower)
    {
      var q := Query(terms[i], where_);
      var key := lower(q);
      ghost var rest := terms[i + 1..];
      assert terms[i..] == [terms[i]] + rest;
      QueriesCons(terms[i], rest, where_);
      DedupCons(q, Queries(rest, where_), seen, lower);
      if key in seen {
        continue;
      }
      seen := seen + {key};
      Assoc(queries, [q], Dedup(Queries(rest, where_), seen, lower));
      queries := queries + [q];
    }
    assert terms[|terms|..] == [];
    NothingLeft(where_, seen, lower);
  }

  ghost predicate Represented(x: string, ds: seq<string>, lower: string -> string) {
    exists d :: d in ds && lower(d) == lower(x)
  }

  /** No two queries are equal ignoring case, and every candidate is represented. */
  lemma {:induction false} DedupDistinct(qs: seq<string>, seen: set<string>, lower: string -> string)
    ensures var ds := Dedup(qs, seen, lower);
            && (forall i :: 0 <= i < |ds| ==> lower(ds[i]) !in seen && ds[i] in qs)
            && (forall i, j :: 0 <= i < j < |ds| ==> lower(ds[i]) != lower(ds[j]))
            && (forall q :: q in qs ==> lower(q) in seen || Represented(q, ds, lower))
  {
    hide Dedup, Represented;
    if qs == [] {
      NothingLeft("", seen, lower);
    } else {
      var q, rest := qs[0], qs[1..];
      Uncons(qs);
      DedupCons(q, rest, seen, lower);
      if lower(q) in seen {
        DedupDistinct(rest, seen, lower);
      } else {
        DedupDistinct(rest, seen + {lower(q)}, lower);
        var tail := Dedup(rest, seen + {lower(q)}, lower);
        forall x | x in qs ensures lower(x) in seen || Represented(x, [q] + tail, lower) {
          RepresentedTail(x, q, tail, lower);
        }
      }
    }
  }

  lemma RepresentedTail(x: string, q: string, tail: seq<string>, lower: string -> string)
    ensures lower(x) == lower(q) || Represented(x, tail, lower) ==> Represented(x, [q] + tail, lower)
  {
    if lower(x) == lower(q) {
      assert q in [q] + tail;
    } else if Represented(x, tail, lower) {
      var d :| d in tail && lower(d) == lower(x);
      assert d in [q] + tail;
    }
  }

  /** Candidates added at the end leave the earlier queries where they were, */
  lemma {:induction false} DedupStable(qs: seq<string>, more: seq<string>, seen: set<string>, lower: string -> string)
    ensures Dedup(qs, seen, lower) <= Dedup(qs + more, seen, lower)
  {
    if qs != [] {
      assert (qs + more)[1..] == qs[1..] + more;
      DedupStable(qs[1..], more, if lower(qs[0]) in seen then seen else seen + {lower(qs[0])}, lower);
    }
  }

  lemma {:induction false} QueriesConcat(a: seq<string>, b: seq<string>, where_: string)
    ensures Queries(a + b, where_) == Queries(a, where_) + Queries(b, where_)
  {
    hide Query, Queries;
    if a == [] {
      assert a + b == b;
      NothingLeft(where_, {}, x => x);
    } else {
      var rest := a[1..];
      QueriesConcat(rest, b, where_);
      Uncons(a);
      Assoc([a[0]], rest, b);
      QueriesCons(a[0], rest, where_);
      QueriesCons(a[0], rest + b, where_);
      Assoc([Query(a[0], where_)], Queries(rest, where_), Queries(b, where_));
    }
  }

  lemma {:induction false} NonEmptyConcat(a: seq<string>, b: seq<string>)
    ensures NonEmpty(a + b) == NonEmpty(a) + NonEmpty(b)
  {
    if a == [] {
      assert a + b == b;
    } else {
      hide NonEmpty;
      var rest := a[1..];
      NonEmptyConcat(rest, b);
      Uncons(a);
      Assoc([a[0]], rest, b);
      Assoc(if a[0] == "" then [] else [a[0]], NonEmpty(rest), NonEmpty(b));
    }
  }

  lemma {:induction false} TrimAllConcat(a: seq<string>, b: seq<string>)
    ensures TrimAll(a + b) == TrimAll(a) + TrimAll(b)
  {
    if a == [] {
      assert a + b == b;
    } else {
      hide Trim, TrimAll;
      var rest := a[1..];
      TrimAllConcat(rest, b);
      Uncons(a);
      Assoc([a[0]], rest, b);
      Assoc([Trim(a[0])], TrimAll(rest), TrimAll(b));
    }
  }

  /** so a saved query index keeps its meaning when keywords are appended to the job. */
  lemma CursorSurvivesNewKeywords(s: Search, more: seq<string>, lower: string -> string)
    ensures Built(s, lower) <= Built(s.(keywords := s.keywords + more), lower)
  {
    hide Trim, Dedup, NonEmpty, TrimAll, Queries;
    var s' := s.(keywords := s.keywords + more);
    assert Categories(s') == Categories(s);
    TrimAllConcat(s.keywords, more);
    Assoc(Categories(s), TrimAll(s.keywords), TrimAll(more));
    NonEmptyConcat(Categories(s) + TrimAll(s.keywords), TrimAll(more));
    QueriesConcat(Terms(s), NonEmpty(TrimAll(more)), Where(s));
    DedupStable(Queries(Terms(s), Where(s)), Queries(NonEmpty(TrimAll(more)), Where(s)), {}, lower);
  }

  // ---------------------------------------------------------------- what is searched for

  /** The search for one term: in the city, the country, both, or anywhere. */
  function Phrase(term: string, city: string, country: string): string {
    if city != "" && country != "" then term + (" in " + (city + (", " + country)))
    else if city != "" then term + (" in " + city)
    else if country != "" then term + (" in " + country)
    else term
  }

  /** The listed categories, or the single one of an older job. */
  function Listed(s: Search): seq<string> {
    if s.categories != [] then s.categories else if s.category.Some? then [s.category.value] else []
  }

  /** What is searched for: every category and keyword that is not blank, and a default without categories. */
  ghost predicate IsTerm(s: Search, t: string) {
    || (exists x :: x in Listed(s) && t == Trim(x) != "")
    || (exists x :: x in s.keywords && t == Trim(x) != "")
    || (t == "travel agency" && forall x :: x in Listed(s) ==> Trim(x) == "")
  }

  lemma {:induction false} KeptAre(xs: seq<string>, t: string)
    ensures t in NonEmpty(TrimAll(xs)) <==> exists x :: x in xs && t == Trim(x) != ""
    ensures NonEmpty(TrimAll(xs)) == [] <==> forall x :: x in xs ==> Trim(x) == ""
  {
    hide Trim;
    if xs != [] {
      KeptAre(xs[1..], t);
      Uncons(xs);
      assert TrimAll(xs) == [Trim(xs[0])] + TrimAll(xs[1..]);
      assert TrimAll(xs)[1..] == TrimAll(xs[1..]);
    }
  }

  lemma {:induction false} NonEmptyIn(xs: seq<string>, t: string)
    ensures t in NonEmpty(xs) <==> t in xs && t != ""
  {
    if xs != [] {
      NonEmptyIn(xs[1..], t);
      Uncons(xs);
    }
  }

  lemma ListedKept(s: Search)
    ensures var listed := if s.categories != [] then s.categories else [Present(s.category)];
            NonEmpty(TrimAll(listed)) == NonEmpty(TrimAll(Listed(s)))
  {
    if s.categories == [] && s.category.None? {
      assert Trim("") == "";
      assert TrimAll([""]) == [""] + TrimAll([]);
    }
  }

  lemma TermsAre(s: Search, t: string)
    ensures t in Terms(s) <==> IsTerm(s, t)
  {
    hide Trim, NonEmpty, TrimAll;
    ListedKept(s);
    KeptAre(Listed(s), t);
    KeptAre(s.keywords, t);
    NonEmptyIn(Categories(s) + TrimAll(s.keywords), t);
    NonEmptyIn(TrimAll(s.keywords), t);
    NonEmptyIn(TrimAll(Listed(s)), t);
  }

  lemma QueryIsPhrase(s: Search, term: string)
    ensures Query(term, Where(s)) == Phrase(term, Present(s.city), Present(s.country))
  {
    var city, country := Present(s.city), Present(s.country);
    Assoc(city, ", ", country);
    Assoc(term, " in ", Where(s));
  }

  lemma {:induction false} QueriesAre(terms: seq<string>, where_: string, q: string)
    ensures q in Queries(terms, where_) <==> exists t :: t in terms && q == Query(t, where_)
  {
    hide Query;
    if terms != [] {
      QueriesAre(terms[1..], where_, q);
      Uncons(terms);
    }
  }

  lemma DedupIsPart(qs: seq<string>, seen: set<string>, lower: string -> string, q: string)
    requires q in Dedup(qs, seen, lower)
    ensures q in qs
  {
    DedupDistinct(qs, seen, lower);
  }

  /** The queries are searches for terms, and every term is searched for, up to case. */
  lemma QueriesSearchTerms(s: Search, lower: string -> string)
    ensures var city, country := Present(s.city), Present(s.country);
            && (forall q :: q in Built(s, lower) ==> exists t :: IsTerm(s, t) && q == Phrase(t, city, country))
            && (forall t :: IsTerm(s, t) ==> Represented(Phrase(t, city, country), Built(s, lower), lower))
  {
    hide Terms, Where, Query, Queries, Dedup, IsTerm, Phrase, Represented;
    var city, country := Present(s.city), Present(s.country);
    var all := Queries(Terms(s), Where(s));
    DedupDistinct(all, {}, lower);
    forall q | q in Built(s, lower) ensures exists t :: IsTerm(s, t) && q == Phrase(t, city, country) {
      DedupIsPart(all, {}, lower, q);
      QueriesAre(Terms(s), Where(s), q);
      var t :| t in Terms(s) && q == Query(t, Where(s));
      TermsAre(s, t);
      QueryIsPhrase(s, t);
    }
    forall t | IsTerm(s, t) ensures Represented(Phrase(t, city, country), Built(s, lower), lower) {
      TermsAre(s, t);
      QueryIsPhrase(s, t);
      QueriesAre(Terms(s), Where(s), Query(t, Where(s)));
    }
  }
}
