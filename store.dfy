/** The document store as the two aggregator scripts see it, and the code
    those scripts share: the search that request_filter builds, the host
    list that request_hosts_in_cluster and request_bc_host_in_dc collect,
    average_by_name over the hits of one host, and the running total of
    per-host averages that sum_by_cluster and sum_by_dc keep.

    The store itself is a parameter: a function from a search to the
    `_source` of each hit, or to the exit that a status other than 200
    causes. `Index` is one such function, a store holding a list of
    documents. */
module Store {
  import opened Results
  import opened Numbers
  import opened Records

  // ------------------------------------------------------------ searches

  /** One exact-match filter `{field: value}`; the search wraps it as `{'term': {field: value}}`. */
  datatype Term = Term(field: string, value: Value)

  /** The range filter `{"range": {field: {"gt": "now-<hours>h"}}}`. */
  datatype Window = Window(field: string, hours: nat)

  /** Every search covers the documents posted during the last 24 hours. */
  const Last24h := Window("post_date", 24)

  /** A search body: the terms of `query.bool.must` and the range of `query.bool.filter`. */
  datatype Query = Query(must: seq<Term>, filter: Window)

  /** The store: for each search, the `_source` of each hit in the order of
      the answer, or `StoreError` when the answer's status is not 200. */
  type Search = Query -> Result<seq<Record>>

  /** request_filter: the template search with one term per filter appended
      to `must`, in the order of the filters, sent to the store. */
  method RequestFilter(search: Search, filters: seq<Term>) returns (r: Result<seq<Record>>)
    ensures r == search(Query(filters, Last24h))
  {
    var must: seq<Term> := [];
    for i := 0 to |filters|
      invariant must == filters[..i]
    {
      must := must + [filters[i]];
    }
    assert filters[..|filters|] == filters;
    r := search(Query(must, Last24h));
  }

  /** The search of request_by_name: the documents of one type and one name. */
  function ByName(kind: string, name: Value): (q: Query)
    ensures q.filter == Last24h
    ensures forall t :: t in q.must <==> t == Term("_type", Str(kind)) || t == Term("name", name)
  {
    Query([Term("_type", Str(kind)), Term("name", name)], Last24h)
  }

  /** request_by_name. */
  method RequestByName(search: Search, kind: string, name: Value) returns (r: Result<seq<Record>>)
    ensures r == search(ByName(kind, name))
  {
    r := RequestFilter(search, [Term("_type", Str(kind)), Term("name", name)]);
  }

  // ------------------------------------------------------- a reference store

  /** A document held by the store: its type, its fields, and how many hours
      ago it was posted. */
  datatype Doc = Doc(kind: string, source: Record, age: real)

  /** A term on `_type` matches the document's type, any other term the field's value. */
  predicate Satisfies(d: Doc, t: Term)
  {
    if t.field == "_type" then t.value == Str(d.kind)
    else t.field in d.source && d.source[t.field] == t.value
  }

  /** A document matches a search when it satisfies every term and falls in the window. */
  predicate Matches(d: Doc, q: Query)
  {
    (forall t :: t in q.must ==> Satisfies(d, t)) && d.age < q.filter.hours as real
  }

  /** The sources of the matching documents, in store order. */
  function Matching(docs: seq<Doc>, q: Query): (r: seq<Record>)
    ensures |r| <= |docs|
    ensures forall h :: h in r <==> exists d :: d in docs && Matches(d, q) && d.source == h
  {
    if docs == [] then []
    else
      var front := Matching(docs[..|docs| - 1], q);
      var d := docs[|docs| - 1];
      assert forall e :: e in docs <==> e in docs[..|docs| - 1] || e == d;
      if Matches(d, q) then front + [d.source] else front
  }

  /** Elasticsearch answers a search without `size` with one page of at most ten hits. */
  const PageSize := 10

  /** The store holding `docs`: each search is answered with the first page of matches. */
  function Index(docs: seq<Doc>): Search
  {
    q => var all := Matching(docs, q); Ok(if |all| <= PageSize then all else all[..PageSize])
  }

  /** The store holding `docs` answering each search with every match, as a
      search asking for enough hits (or scrolling through the pages) gets. */
  function FullIndex(docs: seq<Doc>): Search
  {
    q => Ok(Matching(docs, q))
  }

  /** When every document matches, the matches are the documents' sources in store order. */
  lemma {:induction false} MatchingAll(docs: seq<Doc>, q: Query)
    requires forall d :: d in docs ==> Matches(d, q)
    ensures |Matching(docs, q)| == |docs|
    ensures forall i :: 0 <= i < |docs| ==> Matching(docs, q)[i] == docs[i].source
  {
    if docs != [] {
      var init := docs[..|docs| - 1];
      assert forall d :: d in init ==> d in docs;
      MatchingAll(init, q);
      assert docs[|docs| - 1] in docs;
    }
  }

  /** A search whose matches fit in one page is answered with all of them. */
  lemma {:induction false} IndexAnswers(docs: seq<Doc>, q: Query)
    requires |Matching(docs, q)| <= PageSize
    ensures Index(docs)(q) == Ok(Matching(docs, q))
  {
  }

  /** request_filter, against the reference store, finds exactly the documents
      meeting every filter and posted during the last 24 hours, as long as
      they fit in one page. */
  lemma {:induction false} IndexFinds(docs: seq<Doc>, filters: seq<Term>, h: Record)
    requires |Matching(docs, Query(filters, Last24h))| <= PageSize
    ensures Index(docs)(Query(filters, Last24h)).Ok?
    ensures h in Index(docs)(Query(filters, Last24h)).value <==>
      exists d :: d in docs && d.source == h && d.age < 24.0 && forall i :: 0 <= i < |filters| ==> Satisfies(d, filters[i])
  {
    var q := Query(filters, Last24h);
    if h in Index(docs)(q).value {
      var d :| d in docs && Matches(d, q) && d.source == h;
      assert forall i :: 0 <= i < |filters| ==> filters[i] in q.must;
    }
  }

  // ---------------------------------------------------------- host lists

  predicate NoDuplicates<T(==)>(s: seq<T>)
  {
    forall i, j :: 0 <= i < j < |s| ==> s[i] != s[j]
  }

  /** The values of `xs` in order of first appearance: the keys of a dict
      filled from `xs`, since a Python dict keeps its insertion order and
      assigning an existing key does not move it. */
  function Distinct(xs: seq<Value>): (r: seq<Value>)
    ensures forall x :: x in r <==> x in xs
    ensures NoDuplicates(r)
    ensures |r| <= |xs|
  {
    if xs == [] then []
    else
      var front := Distinct(xs[..|xs| - 1]);
      var x := xs[|xs| - 1];
      assert forall y :: y in xs <==> y in xs[..|xs| - 1] || y == x;
      if x in front then front else front + [x]
  }

  /** A list without duplicates is its own dict of keys. */
  lemma {:induction false} DistinctKeeps(xs: seq<Value>)
    requires NoDuplicates(xs)
    ensures Distinct(xs) == xs
  {
    if xs != [] {
      var init := xs[..|xs| - 1];
      DistinctKeeps(init);
      assert xs[|xs| - 1] !in init by {
        forall i | 0 <= i < |init| ensures init[i] != xs[|xs| - 1] {
          assert init[i] == xs[i];
        }
      }
    }
  }

  /** A list repeating one value lists it once. */
  lemma {:induction false} DistinctConst(xs: seq<Value>, x: Value)
    requires xs != [] && forall y :: y in xs ==> y == x
    ensures Distinct(xs) == [x]
  {
    var init := xs[..|xs| - 1];
    assert xs[|xs| - 1] in xs;
    if init != [] {
      assert forall y :: y in init ==> y in xs;
      DistinctConst(init, x);
    }
  }

  /** Listing the keys twice lists them once. */
  lemma {:induction false} DistinctIdempotent(xs: seq<Value>)
    ensures Distinct(Distinct(xs)) == Distinct(xs)
  {
    DistinctKeeps(Distinct(xs));
  }

  /** The `name` of each hit, in hit order; KeyError at a hit without one. */
  function HitNames(hits: seq<Record>): (r: Result<seq<Value>>)
    ensures r.Ok? <==> forall i :: 0 <= i < |hits| ==> "name" in hits[i]
    ensures r.Ok? ==> |r.value| == |hits| && forall i :: 0 <= i < |hits| ==> r.value[i] == hits[i]["name"]
    ensures r.Fail? ==> r.error == KeyMissing
  {
    if hits == [] then Ok([])
    else
      var front :- HitNames(hits[..|hits| - 1]);
      var name :- Get(hits[|hits| - 1], "name");
      Ok(front + [name])
  }

  /** One more hit with a name: the name is appended, and added to the
      distinct names unless already there. */
  lemma {:induction false} HitNamesStep(hits: seq<Record>, i: nat)
    requires i < |hits| && "name" in hits[i] && HitNames(hits[..i]).Ok?
    ensures HitNames(hits[..i + 1]) == Ok(HitNames(hits[..i]).value + [hits[i]["name"]])
    ensures var before := Distinct(HitNames(hits[..i]).value); var name := hits[i]["name"];
      Distinct(HitNames(hits[..i + 1]).value) == if name in before then before else before + [name]
  {
    var prefix := hits[..i + 1];
    assert prefix[..i] == hits[..i];
    assert prefix[i] == hits[i];
    var names := HitNames(hits[..i]).value + [hits[i]["name"]];
    assert names[..|names| - 1] == HitNames(hits[..i]).value;
  }

  /** The host list request_hosts_in_cluster and request_bc_host_in_dc
      return for the hits of their search: every hit's name, once each. */
  function HostList(hits: seq<Record>): (r: Result<seq<Value>>)
    ensures r.Ok? <==> forall i :: 0 <= i < |hits| ==> "name" in hits[i]
    ensures r.Fail? ==> r.error == KeyMissing
    ensures r.Ok? ==> NoDuplicates(r.value)
    ensures r.Ok? ==> forall v :: v in r.value <==> exists i :: 0 <= i < |hits| && "name" in hits[i] && hits[i]["name"] == v
  {
    var names :- HitNames(hits);
    assert forall v :: v in names <==> exists i :: 0 <= i < |hits| && "name" in hits[i] && hits[i]["name"] == v by {
      forall v | v in names ensures exists i :: 0 <= i < |hits| && "name" in hits[i] && hits[i]["name"] == v {
        var i :| 0 <= i < |names| && names[i] == v;
      }
    }
    Ok(Distinct(names))
  }

  /** The two loops of request_hosts_in_cluster / request_bc_host_in_dc
      once the hits are in: fill the dict `hosts` keyed by name, then append
      its keys to `result`. The dict is its list of keys in insertion order;
      the value 1 it maps each key to is never read. */
  method HostNames(hits: seq<Record>) returns (r: Result<seq<Value>>)
    ensures r == HostList(hits)
  {
    var hosts: seq<Value> := [];
    var i := 0;
    while i < |hits|
      invariant 0 <= i <= |hits|
      invariant HitNames(hits[..i]).Ok?
      invariant hosts == Distinct(HitNames(hits[..i]).value)
    {
      if "name" !in hits[i] {
        return Fail(KeyMissing);
      }
      HitNamesStep(hits, i);
      var name := hits[i]["name"];
      if name !in hosts {
        hosts := hosts + [name];
      }
      i := i + 1;
    }
    assert hits[..i] == hits;
    var result: seq<Value> := [];
    for k := 0 to |hosts|
      invariant result == hosts[..k]
    {
      result := result + [hosts[k]];
    }
    assert hosts[..|hosts|] == hosts;
    return Ok(result);
  }

  /** The search of request_hosts_in_cluster and request_bc_host_in_dc: the
      documents of one type whose `field` is `value`. */
  function HostsQuery(kind: string, field: string, value: string): (q: Query)
    ensures q.filter == Last24h
    ensures forall t :: t in q.must <==> t == Term("_type", Str(kind)) || t == Term(field, Str(value))
  {
    Query([Term("_type", Str(kind)), Term(field, Str(value))], Last24h)
  }

  /** A document matches that search when it has the type and the field's
      value and was posted during the last 24 hours. */
  lemma {:induction false} HostsQueryMatch(d: Doc, kind: string, field: string, value: string)
    requires field != "_type"
    ensures Matches(d, HostsQuery(kind, field, value)) <==>
      d.kind == kind && d.age < 24.0 && field in d.source && d.source[field] == Str(value)
  {
    var q := HostsQuery(kind, field, value);
    assert forall t :: t in q.must <==> t == q.must[0] || t == q.must[1];
    assert Satisfies(d, q.must[0]) <==> d.kind == kind;
    assert Satisfies(d, q.must[1]) <==> field in d.source && d.source[field] == Str(value);
    assert q.filter.hours as real == 24.0;
  }

  /** Against a store answering with every match, the host list of that
      search is the names of the documents of the type with the field's
      value posted during the last 24 hours. */
  lemma {:induction false} HostsOfFullIndex(docs: seq<Doc>, kind: string, field: string, value: string, v: Value)
    requires field != "_type"
    requires forall d :: d in docs && Matches(d, HostsQuery(kind, field, value)) ==> "name" in d.source
    ensures FullIndex(docs)(HostsQuery(kind, field, value)).Ok?
    ensures HostList(FullIndex(docs)(HostsQuery(kind, field, value)).value).Ok?
    ensures v in HostList(FullIndex(docs)(HostsQuery(kind, field, value)).value).value <==>
      exists d :: d in docs && d.kind == kind && d.age < 24.0
                  && field in d.source && d.source[field] == Str(value)
                  && "name" in d.source && d.source["name"] == v
  {
    var q := HostsQuery(kind, field, value);
    var hits := Matching(docs, q);
    forall i | 0 <= i < |hits| ensures "name" in hits[i] {
      assert hits[i] in hits;
    }
    var hosts := HostList(hits);
    if v in hosts.value {
      var i :| 0 <= i < |hits| && "name" in hits[i] && hits[i]["name"] == v;
      assert hits[i] in hits;
      var d :| d in docs && Matches(d, q) && d.source == hits[i];
      HostsQueryMatch(d, kind, field, value);
    }
    if exists d :: d in docs && d.kind == kind && d.age < 24.0
                   && field in d.source && d.source[field] == Str(value)
                   && "name" in d.source && d.source["name"] == v {
      var d :| d in docs && d.kind == kind && d.age < 24.0
               && field in d.source && d.source[field] == Str(value)
               && "name" in d.source && d.source["name"] == v;
      HostsQueryMatch(d, kind, field, value);
      assert d.source in hits;
      var i :| 0 <= i < |hits| && hits[i] == d.source;
    }
  }

  /** Against a store holding `docs`, the host list of that search is the
      names of the documents of the type with the field's value posted
      during the last 24 hours, provided those documents fit in one page. */
  lemma {:induction false} HostsOfIndex(docs: seq<Doc>, kind: string, field: string, value: string, v: Value)
    requires field != "_type"
    requires |Matching(docs, HostsQuery(kind, field, value))| <= PageSize
    requires forall d :: d in docs && Matches(d, HostsQuery(kind, field, value)) ==> "name" in d.source
    ensures Index(docs)(HostsQuery(kind, field, value)).Ok?
    ensures HostList(Index(docs)(HostsQuery(kind, field, value)).value).Ok?
    ensures v in HostList(Index(docs)(HostsQuery(kind, field, value)).value).value <==>
      exists d :: d in docs && d.kind == kind && d.age < 24.0
                  && field in d.source && d.source[field] == Str(value)
                  && "name" in d.source && d.source["name"] == v
  {
    IndexAnswers(docs, HostsQuery(kind, field, value));
    HostsOfFullIndex(docs, kind, field, value, v);
  }

  /** The first page drops hosts: ten recent documents of host "a" and then
      one of host "b" in the same cluster leave "b" out of the host list,
      where a store answering with every match lists it. */
  lemma {:induction false} PageDropsHost(kind: string)
    ensures var q := HostsQuery(kind, "cluster", "c");
      var a := Doc(kind, map["name" := Str("a"), "cluster" := Str("c")], 1.0);
      var b := Doc(kind, map["name" := Str("b"), "cluster" := Str("c")], 1.0);
      var docs := seq(PageSize, _ => a) + [b];
      && Index(docs)(q).Ok? && HostList(Index(docs)(q).value) == Ok([Str("a")])
      && FullIndex(docs)(q).Ok? && HostList(FullIndex(docs)(q).value).Ok?
      && Str("b") in HostList(FullIndex(docs)(q).value).value
  {
    var q := HostsQuery(kind, "cluster", "c");
    var a := Doc(kind, map["name" := Str("a"), "cluster" := Str("c")], 1.0);
    var b := Doc(kind, map["name" := Str("b"), "cluster" := Str("c")], 1.0);
    HostsQueryMatch(a, kind, "cluster", "c");
    HostsQueryMatch(b, kind, "cluster", "c");
    FirstPageRepeats(a, b, q);
    var docs := seq(PageSize, _ => a) + [b];
    HostsOfFullIndex(docs, kind, "cluster", "c", Str("b"));
    assert docs[PageSize] == b;
  }

  /** A page's worth of documents of one host ahead of a match of another
      fills the first page with the first host alone. */
  lemma {:induction false} FirstPageRepeats(a: Doc, b: Doc, q: Query)
    requires Matches(a, q) && Matches(b, q) && "name" in a.source
    ensures var docs := seq(PageSize, _ => a) + [b];
      Index(docs)(q).Ok? && HostList(Index(docs)(q).value) == Ok([a.source["name"]])
  {
    var docs := seq(PageSize, _ => a) + [b];
    assert forall d :: d in docs ==> d == a || d == b;
    MatchingAll(docs, q);
    var page := Index(docs)(q).value;
    assert |page| == PageSize && forall i :: 0 <= i < PageSize ==> page[i] == a.source;
    var names := HitNames(page).value;
    assert forall x :: x in names ==> x == a.source["name"];
    DistinctConst(names, a.source["name"]);
  }

  // ------------------------------------------------------------ averages

  /** `float(hit[field])` of each hit, in hit order; the first KeyError,
      ValueError or TypeError stops the loop. */
  function FieldValues(hits: seq<Record>, field: string): (r: Result<seq<real>>)
    ensures r.Ok? <==> forall i :: 0 <= i < |hits| ==> field in hits[i] && FloatOf(hits[i][field]).Ok?
    ensures r.Ok? ==> |r.value| == |hits|
    ensures r.Ok? ==> forall i :: 0 <= i < |hits| ==> FloatOf(hits[i][field]) == Ok(r.value[i])
  {
    if hits == [] then Ok([])
    else
      var init, h := hits[..|hits| - 1], hits[|hits| - 1];
      var front := FieldValues(init, field);
      assert forall i :: 0 <= i < |init| ==> hits[i] == init[i];
      if front.Fail? then Fail(front.error)
      else if field !in h then Fail(KeyMissing)
      else
        var x := FloatOf(h[field]);
        if x.Fail? then Fail(x.error) else Ok(front.value + [x.value])
  }

  lemma {:induction false} FieldValuesFailurePersists(hits: seq<Record>, field: string, i: nat)
    requires i <= |hits| && FieldValues(hits[..i], field).Fail?
    ensures FieldValues(hits, field) == FieldValues(hits[..i], field)
    decreases |hits|
  {
    if i < |hits| {
      var init := hits[..|hits| - 1];
      assert init[..i] == hits[..i];
      FieldValuesFailurePersists(init, field, i);
    } else {
      assert hits[..i] == hits;
    }
  }

  /** What average_by_name returns for the hits of one host: `hits_sum / hits_cpt`, or 0.0 with no hits. */
  function HitsMean(hits: seq<Record>, field: string): (r: Result<real>)
    ensures hits == [] ==> r == Ok(0.0)
    ensures r.Ok? <==> FieldValues(hits, field).Ok?
  {
    var values :- FieldValues(hits, field);
    Ok(Mean(values))
  }

  /** The average lies between any bounds of the averaged values: between
      their minimum and their maximum. */
  lemma {:induction false} HitsMeanBounds(hits: seq<Record>, field: string, lo: real, hi: real)
    requires hits != [] && FieldValues(hits, field).Ok?
    requires forall i :: 0 <= i < |hits| ==> lo <= FieldValues(hits, field).value[i] <= hi
    ensures lo <= HitsMean(hits, field).value <= hi
  {
    MeanBounds(FieldValues(hits, field).value, lo, hi);
  }

  /** The average of hits that all hold the same value is that value. */
  lemma {:induction false} HitsMeanConstant(hits: seq<Record>, field: string, v: real)
    requires hits != []
    requires forall i :: 0 <= i < |hits| ==> field in hits[i] && hits[i][field] == Num(v)
    ensures HitsMean(hits, field) == Ok(v)
  {
    HitsMeanBounds(hits, field, v, v);
  }

  /** A field of each hit that is the sum of two others has, on average, the
      sum of their averages. */
  predicate AddsUp(h: Record, part: string, rest: string, whole: string)
  {
    && part in h && rest in h && whole in h
    && FloatOf(h[part]).Ok? && FloatOf(h[rest]).Ok? && FloatOf(h[whole]).Ok?
    && FloatOf(h[whole]).value == FloatOf(h[part]).value + FloatOf(h[rest]).value
  }

  lemma {:induction false} SumOfAddsUp(hits: seq<Record>, part: string, rest: string, whole: string)
    requires forall i :: 0 <= i < |hits| ==> AddsUp(hits[i], part, rest, whole)
    ensures FieldValues(hits, part).Ok? && FieldValues(hits, rest).Ok? && FieldValues(hits, whole).Ok?
    ensures Sum(FieldValues(hits, whole).value) == Sum(FieldValues(hits, part).value) + Sum(FieldValues(hits, rest).value)
  {
    if hits != [] {
      var init := hits[..|hits| - 1];
      SumOfAddsUp(init, part, rest, whole);
      var p, q, w := FieldValues(hits, part).value, FieldValues(hits, rest).value, FieldValues(hits, whole).value;
      assert p[..|p| - 1] == FieldValues(init, part).value;
      assert q[..|q| - 1] == FieldValues(init, rest).value;
      assert w[..|w| - 1] == FieldValues(init, whole).value;
    }
  }

  lemma {:induction false} HitsMeanAddsUp(hits: seq<Record>, part: string, rest: string, whole: string)
    requires forall i :: 0 <= i < |hits| ==> AddsUp(hits[i], part, rest, whole)
    ensures HitsMean(hits, part).Ok? && HitsMean(hits, rest).Ok? && HitsMean(hits, whole).Ok?
    ensures HitsMean(hits, whole).value == HitsMean(hits, part).value + HitsMean(hits, rest).value
  {
    SumOfAddsUp(hits, part, rest, whole);
    MeanAdds(FieldValues(hits, part).value, FieldValues(hits, rest).value, FieldValues(hits, whole).value);
  }

  /** One more hit whose field reads as x adds x to the values and to their running sum. */
  lemma {:induction false} FieldValuesStep(hits: seq<Record>, field: string, i: nat, x: real)
    requires i < |hits| && FieldValues(hits[..i], field).Ok?
    requires field in hits[i] && FloatOf(hits[i][field]) == Ok(x)
    ensures FieldValues(hits[..i + 1], field) == Ok(FieldValues(hits[..i], field).value + [x])
    ensures Sum(FieldValues(hits[..i + 1], field).value) == Sum(FieldValues(hits[..i], field).value) + x
  {
    var before := FieldValues(hits[..i], field).value;
    assert hits[..i + 1][..i] == hits[..i];
    assert (before + [x])[..|before|] == before;
  }

  /** A hit without the field, or whose field float() rejects, ends the
      average with that error once the hits before it were read. */
  lemma {:induction false} FieldValuesFailAt(hits: seq<Record>, field: string, i: nat)
    requires i < |hits| && FieldValues(hits[..i], field).Ok?
    requires field !in hits[i] || FloatOf(hits[i][field]).Fail?
    ensures HitsMean(hits, field) ==
      Fail(if field !in hits[i] then KeyMissing else FloatOf(hits[i][field]).error)
  {
    assert hits[..i + 1][..i] == hits[..i];
    FieldValuesFailurePersists(hits, field, i + 1);
  }

  /** Once every hit is read, the average is the running sum over the count. */
  lemma {:induction false} HitsMeanOfSum(hits: seq<Record>, field: string)
    requires FieldValues(hits[..|hits|], field).Ok?
    ensures HitsMean(hits, field) ==
      Ok(if |hits| == 0 then 0.0 else Sum(FieldValues(hits[..|hits|], field).value) / |hits| as real)
  {
    assert hits[..|hits|] == hits;
  }

  /** The accumulator loop of average_by_name once the hits are in. */
  method MeanOfHits(hits: seq<Record>, field: string) returns (r: Result<real>)
    ensures r == HitsMean(hits, field)
  {
    var hitsCpt := 0.0;
    var hitsSum := 0.0;
    var i := 0;
    while i < |hits|
      invariant 0 <= i <= |hits|
      invariant FieldValues(hits[..i], field).Ok?
      invariant hitsSum == Sum(FieldValues(hits[..i], field).value)
      invariant hitsCpt == i as real
    {
      var v := Get(hits[i], field);
      if v.Fail? {
        FieldValuesFailAt(hits, field, i);
        return Fail(v.error);
      }
      var x := FloatOf(v.value);
      if x.Fail? {
        FieldValuesFailAt(hits, field, i);
        return Fail(x.error);
      }
      FieldValuesStep(hits, field, i, x.value);
      hitsSum := hitsSum + x.value;
      hitsCpt := hitsCpt + 1.0;
      i := i + 1;
    }
    HitsMeanOfSum(hits, field);
    if hitsCpt <= 0.0 {
      return Ok(0.0);
    }
    return Ok(hitsSum / hitsCpt);
  }

  /** average_by_name: the average of one field over the documents of one
      type and one name posted during the last 24 hours. */
  function HostMean(search: Search, kind: string, name: Value, field: string): (r: Result<real>)
    ensures search(ByName(kind, name)).Fail? ==> r == Fail(search(ByName(kind, name)).error)
    ensures search(ByName(kind, name)) == Ok([]) ==> r == Ok(0.0)
  {
    var hits :- search(ByName(kind, name));
    HitsMean(hits, field)
  }

  /** average_by_name. */
  method AverageByName(search: Search, kind: string, name: Value, field: string) returns (r: Result<real>)
    ensures r == HostMean(search, kind, name, field)
  {
    var hits := RequestByName(search, kind, name);
    if hits.Fail? {
      return Fail(hits.error);
    }
    r := MeanOfHits(hits.value, field);
  }

  // ---------------------------------------------------------------- sums

  /** `HostMean` of one type and field, as a function of the host name. */
  function HostMeanOf(search: Search, kind: string, field: string): Value -> Result<real>
  {
    name => HostMean(search, kind, name, field)
  }

  /** The average of each host in turn; the first failure stops the loop. */
  function HostMeans(search: Search, kind: string, hosts: seq<Value>, field: string): (r: Result<seq<real>>)
    ensures r.Ok? ==> |r.value| == |hosts|
  {
    Collect(HostMeanOf(search, kind, field), hosts)
  }

  /** What sum_by_cluster and sum_by_dc return for a host list: the sum of
      the hosts' averages, 0.0 for no hosts. */
  function SumOfMeans(search: Search, kind: string, hosts: seq<Value>, field: string): (r: Result<real>)
    ensures hosts == [] ==> r == Ok(0.0)
    ensures r.Ok? <==> HostMeans(search, kind, hosts, field).Ok?
  {
    var means :- HostMeans(search, kind, hosts, field);
    Ok(Sum(means))
  }

  /** The store holds, for the given fields, only documents whose `whole`
      field is the sum of the other two. */
  ghost predicate AnswersAddUp(search: Search, part: string, rest: string, whole: string)
  {
    forall q, h :: search(q).Ok? && h in search(q).value ==> AddsUp(h, part, rest, whole)
  }

  /** Summing per-host averages keeps a field that is the sum of two others
      the sum of their totals. */
  lemma {:induction false} SumOfMeansAddsUp(search: Search, kind: string, hosts: seq<Value>,
                                            part: string, rest: string, whole: string)
    requires AnswersAddUp(search, part, rest, whole)
    requires forall i :: 0 <= i < |hosts| ==> search(ByName(kind, hosts[i])).Ok?
    ensures SumOfMeans(search, kind, hosts, part).Ok? && SumOfMeans(search, kind, hosts, rest).Ok?
    ensures SumOfMeans(search, kind, hosts, whole).Ok?
    ensures SumOfMeans(search, kind, hosts, whole).value ==
      SumOfMeans(search, kind, hosts, part).value + SumOfMeans(search, kind, hosts, rest).value
  {
    forall i | 0 <= i < |hosts|
      ensures HostMeanOf(search, kind, part)(hosts[i]).Ok? && HostMeanOf(search, kind, rest)(hosts[i]).Ok?
      ensures HostMeanOf(search, kind, whole)(hosts[i]).Ok?
      ensures HostMean(search, kind, hosts[i], part).Ok? && HostMean(search, kind, hosts[i], rest).Ok?
      ensures HostMean(search, kind, hosts[i], whole).Ok?
      ensures HostMean(search, kind, hosts[i], whole).value ==
        HostMean(search, kind, hosts[i], part).value + HostMean(search, kind, hosts[i], rest).value
    {
      var hits := search(ByName(kind, hosts[i])).value;
      assert forall j :: 0 <= j < |hits| ==> hits[j] in search(ByName(kind, hosts[i])).value;
      HitsMeanAddsUp(hits, part, rest, whole);
    }
    CollectOk(HostMeanOf(search, kind, part), hosts);
    CollectOk(HostMeanOf(search, kind, rest), hosts);
    CollectOk(HostMeanOf(search, kind, whole), hosts);
    if hosts != [] {
      var init := hosts[..|hosts| - 1];
      SumOfMeansAddsUp(search, kind, init, part, rest, whole);
      var p := HostMeans(search, kind, hosts, part).value;
      var q := HostMeans(search, kind, hosts, rest).value;
      var w := HostMeans(search, kind, hosts, whole).value;
      assert p[..|p| - 1] == HostMeans(search, kind, init, part).value;
      assert q[..|q| - 1] == HostMeans(search, kind, init, rest).value;
      assert w[..|w| - 1] == HostMeans(search, kind, init, whole).value;
    }
  }

  /** The store holds, for the given field, only documents where it is a
      number at least zero. */
  ghost predicate AnswersNonNegative(search: Search, field: string)
  {
    forall q, h :: search(q).Ok? && h in search(q).value ==>
      field in h && FloatOf(h[field]).Ok? && FloatOf(h[field]).value >= 0.0
  }

  /** An average of values at least zero is at least zero. */
  lemma {:induction false} HitsMeanNonNegative(hits: seq<Record>, field: string)
    requires forall j :: 0 <= j < |hits| ==>
      field in hits[j] && FloatOf(hits[j][field]).Ok? && FloatOf(hits[j][field]).value >= 0.0
    ensures HitsMean(hits, field).Ok? && HitsMean(hits, field).value >= 0.0
  {
    var values := FieldValues(hits, field).value;
    forall j | 0 <= j < |values| ensures 0.0 <= values[j] {
      assert FloatOf(hits[j][field]) == Ok(values[j]);
    }
    MeanNonNegative(values);
  }

  /** Averages and sums of values at least zero are at least zero. */
  lemma {:induction false} SumOfMeansNonNegative(search: Search, kind: string, hosts: seq<Value>, field: string)
    requires AnswersNonNegative(search, field)
    requires SumOfMeans(search, kind, hosts, field).Ok?
    ensures SumOfMeans(search, kind, hosts, field).value >= 0.0
  {
    var means := HostMeans(search, kind, hosts, field).value;
    CollectEach(HostMeanOf(search, kind, field), hosts);
    forall i | 0 <= i < |means| ensures 0.0 <= means[i] {
      assert HostMean(search, kind, hosts[i], field) == Ok(means[i]);
      var answer := search(ByName(kind, hosts[i]));
      assert answer.Ok?;
      var hits := answer.value;
      forall j | 0 <= j < |hits|
        ensures field in hits[j] && FloatOf(hits[j][field]).Ok? && FloatOf(hits[j][field]).value >= 0.0
      {
        assert hits[j] in answer.value;
      }
      HitsMeanNonNegative(hits, field);
    }
    SumNonNegative(means);
  }

  /** The loop of sum_by_cluster and sum_by_dc over a host list: `result += average_by_name(host, value)`. */
  method SumOfAverages(search: Search, kind: string, hosts: seq<Value>, field: string) returns (r: Result<real>)
    ensures r == SumOfMeans(search, kind, hosts, field)
  {
    var result := 0.0;
    var i := 0;
    assert hosts[..0] == [];
    while i < |hosts|
      invariant 0 <= i <= |hosts|
      invariant HostMeans(search, kind, hosts[..i], field).Ok?
      invariant result == Sum(HostMeans(search, kind, hosts[..i], field).value)
    {
      var m := AverageByName(search, kind, hosts[i], field);
      CollectStep(HostMeanOf(search, kind, field), hosts, i);
      if m.Fail? {
        return Fail(m.error);
      }
      ghost var before := HostMeans(search, kind, hosts[..i], field).value;
      assert (before + [m.value])[..|before|] == before;
      result := result + m.value;
      i := i + 1;
    }
    assert hosts[..i] == hosts;
    return Ok(result);
  }
}
