/** The research node: issue the category's queries one after another, merge
    what they return in query order then result order, keep the first hit for
    each URL, and cap the result at fifteen entries. */
module Research {
  import opened Types
  import opened Registry

  /** `max_results` passed with every query. */
  const ResultsPerQuery: nat := 5
  /** `search_depth` passed with every query. */
  const SearchDepth: string := "advanced"
  /** Length of the `search_results` and `sources` lists the node returns. */
  const MaxResults: nat := 15

  /** The provider call made for one query. */
  function RequestFor(query: string): SearchRequest {
    SearchRequest(query, ResultsPerQuery, SearchDepth)
  }

  function ToHit(r: RawResult): Hit
    requires r.url.Some?
  {
    Hit(r.url.value, r.title, r.content)
  }

  /** The hits one results list can contribute: reading `r["url"]` raises on
      the first entry without a URL, which ends that query, so only the entries
      before it are looked at. */
  function Usable(items: seq<RawResult>): seq<Hit>
    decreases |items|
  {
    if items == [] || items[0].url.None? then [] else [ToHit(items[0])] + Usable(items[1..])
  }

  /** What one search call adds to the merge: nothing when the call raises,
      nothing when the response has no `results` key. */
  function Contribution(outcome: SearchOutcome): seq<Hit> {
    match outcome
    case SearchFailed => []
    case SearchResponse(results) => Usable(results.GetOr([]))
  }

  /** The outcome of every query's search call, in query order. */
  function Outcomes(queries: seq<string>, search: SearchRequest -> SearchOutcome): (outcomes: seq<SearchOutcome>)
    ensures |outcomes| == |queries|
    ensures forall i :: 0 <= i < |queries| ==> outcomes[i] == search(RequestFor(queries[i]))
  {
    seq(|queries|, i requires 0 <= i < |queries| => search(RequestFor(queries[i])))
  }

  /** Every looked-at hit of every query, in query order then result order,
      before deduplication. */
  function RawMerge(outcomes: seq<SearchOutcome>): seq<Hit>
    decreases |outcomes|
  {
    if outcomes == [] then [] else Contribution(outcomes[0]) + RawMerge(outcomes[1..])
  }

  /** One step of the merge loop: append `h` unless its URL is already kept. */
  function AddIfNew(kept: seq<Hit>, h: Hit): seq<Hit> {
    if h.url in Urls(kept) then kept else kept + [h]
  }

  /** The merge loop continued from `kept` over the remaining `hits`. */
  function DedupFrom(kept: seq<Hit>, hits: seq<Hit>): seq<Hit>
    decreases |hits|
  {
    if hits == [] then kept else DedupFrom(AddIfNew(kept, hits[0]), hits[1..])
  }

  /** The merge loop run from empty lists. */
  function Dedup(hits: seq<Hit>): seq<Hit> {
    DedupFrom([], hits)
  }

  /** `s[:15]`. */
  function Cap<T>(s: seq<T>): (r: seq<T>)
    ensures |r| == if |s| < MaxResults then |s| else MaxResults
    ensures r == s[..|r|]
  {
    if |s| <= MaxResults then s else s[..MaxResults]
  }

  /** The merge of all queries issued for a state. */
  function StateMerge(state: AgentState, search: SearchRequest -> SearchOutcome): seq<Hit> {
    RawMerge(Outcomes(QueriesFor(state.companyName, state.analysisType), search))
  }

  /** The state `research_node` returns. */
  function Research(state: AgentState, search: SearchRequest -> SearchOutcome): AgentState {
    var kept := Dedup(StateMerge(state, search));
    state.(searchResults := Cap(kept), sources := Cap(Urls(kept)))
  }

  lemma UrlsSnoc(kept: seq<Hit>, h: Hit)
    ensures Urls(kept + [h]) == Urls(kept) + [h.url]
  {
  }

  /** One looked-at entry of the inner loop: the merge continues from the
      kept list updated by that entry. */
  lemma MergeOneHit(kept: seq<Hit>, items: seq<RawResult>, j: nat)
    requires j < |items| && items[j].url.Some?
    ensures DedupFrom(kept, Usable(items[j..]))
         == DedupFrom(AddIfNew(kept, ToHit(items[j])), Usable(items[j + 1..]))
  {
  }

  /** The inner loop ends at the end of the list or at an entry without URL;
      nothing of that list remains to be merged. */
  lemma UsableStops(items: seq<RawResult>, j: nat)
    requires j <= |items|
    requires j == |items| || items[j].url.None?
    ensures Usable(items[j..]) == []
  {
  }

  /** The inner loop of `research_node` over one response's results: each
      entry whose URL is not yet kept is appended to both lists; the first
      entry without URL raises, which ends the loop. */
  method MergeResults(allResults: seq<Hit>, allSources: seq<string>, items: seq<RawResult>)
    returns (results: seq<Hit>, sources: seq<string>)
    requires allSources == Urls(allResults)
    ensures results == DedupFrom(allResults, Usable(items))
    ensures sources == Urls(results)
  {
    results, sources := allResults, allSources;
    var j := 0;
    assert items[0..] == items;
    while j < |items|
      invariant 0 <= j <= |items|
      invariant sources == Urls(results)
      invariant DedupFrom(results, Usable(items[j..])) == DedupFrom(allResults, Usable(items))
    {
      var r := items[j];
      if r.url.None? {
        // `r["url"]` raises: the rest of this query is skipped
        break;
      }
      MergeOneHit(results, items, j);
      if r.url.value !in sources {
        UrlsSnoc(results, ToHit(r));
        results := results + [ToHit(r)];
        sources := sources + [r.url.value];
      }
      j := j + 1;
    }
    UsableStops(items, j);
  }

  /** Entering the outer loop body for query `q`: its contribution comes first. */
  lemma RawMergeCons(outcomes: seq<SearchOutcome>, q: nat)
    requires q < |outcomes|
    ensures RawMerge(outcomes[q..]) == Contribution(outcomes[q]) + RawMerge(outcomes[q + 1..])
  {
  }

  /** `research_node`: the loop appends to `all_results` and `all_sources`
      in place, keeping the two aligned. */
  method ResearchNode(state: AgentState, search: SearchRequest -> SearchOutcome) returns (next: AgentState)
    ensures next == Research(state, search)
  {
    var queries := QueriesFor(state.companyName, state.analysisType);
    var allResults: seq<Hit> := [];
    var allSources: seq<string> := [];
    ghost var outcomes := Outcomes(queries, search);
    ghost var goal := Dedup(RawMerge(outcomes));
    assert outcomes[0..] == outcomes;
    for q := 0 to |queries|
      invariant allSources == Urls(allResults)
      invariant DedupFrom(allResults, RawMerge(outcomes[q..])) == goal
    {
      RawMergeCons(outcomes, q);
      DedupFromAppend(allResults, Contribution(outcomes[q]), RawMerge(outcomes[q + 1..]));
      var outcome := search(RequestFor(queries[q]));
      match outcome
      case SearchFailed =>
        // the error is logged and the next query is issued
      case SearchResponse(results) =>
        allResults, allSources := MergeResults(allResults, allSources, results.GetOr([]));
    }
    assert outcomes[|queries|..] == [];
    next := state.(searchResults := Cap(allResults), sources := Cap(allSources));
  }

  /** Merging two lists one after the other is merging their concatenation. */
  lemma {:induction false} DedupFromAppend(kept: seq<Hit>, a: seq<Hit>, b: seq<Hit>)
    ensures DedupFrom(DedupFrom(kept, a), b) == DedupFrom(kept, a + b)
    decreases |a|
  {
    if a != [] {
      assert (a + b)[1..] == a[1..] + b;
      DedupFromAppend(AddIfNew(kept, a[0]), a[1..], b);
    } else {
      assert a + b == b;
    }
  }

  // ----- properties of the merge -----

  /** Merging two outcome lists one after the other is concatenation. */
  lemma {:induction false} RawMergeAppend(a: seq<SearchOutcome>, b: seq<SearchOutcome>)
    ensures RawMerge(a + b) == RawMerge(a) + RawMerge(b)
    decreases |a|
  {
    if a == [] {
      assert a + b == b;
    } else {
      assert (a + b)[1..] == a[1..] + b;
      RawMergeAppend(a[1..], b);
    }
  }

  /** A query whose search call raises adds nothing, wherever it stands, and
      the queries after it still contribute exactly what they would have. */
  lemma FailedQueryContributesNothing(before: seq<SearchOutcome>, after: seq<SearchOutcome>)
    ensures RawMerge(before + [SearchFailed] + after) == RawMerge(before) + RawMerge(after)
  {
    RawMergeAppend(before + [SearchFailed], after);
    RawMergeAppend(before, [SearchFailed]);
    RawMergeSingleFailure();
  }

  lemma RawMergeSingleFailure()
    ensures RawMerge([SearchFailed]) == []
  {
  }

  /** One merge step keeps `kept` in front and adds at most the hit's URL. */
  lemma AddIfNewUrls(kept: seq<Hit>, h: Hit)
    ensures var next := AddIfNew(kept, h);
      && |kept| <= |next| && next[..|kept|] == kept
      && forall u :: u in Urls(next) <==> u in Urls(kept) || u == h.url
  {
    if h.url !in Urls(kept) {
      UrlsSnoc(kept, h);
      assert (kept + [h])[..|kept|] == kept;
    }
  }

  /** The merge continued from `kept` keeps `kept` in front and holds exactly
      the URLs of `kept` and of `hits`. */
  lemma {:induction false} DedupFromUrls(kept: seq<Hit>, hits: seq<Hit>)
    ensures var d := DedupFrom(kept, hits);
      && |kept| <= |d| && d[..|kept|] == kept
      && forall u :: u in Urls(d) <==> u in Urls(kept) || u in Urls(hits)
    decreases |hits|
  {
    if hits != [] {
      var h := hits[0];
      var next := AddIfNew(kept, h);
      var d := DedupFrom(kept, hits);
      assert d == DedupFrom(next, hits[1..]);
      AddIfNewUrls(kept, h);
      DedupFromUrls(next, hits[1..]);
      assert d[..|kept|] == kept by {
        assert d[..|kept|] == d[..|next|][..|kept|];
      }
      assert forall u :: u in Urls(d) <==> u in Urls(kept) || u in Urls(hits) by {
        UrlsTail(hits);
      }
    }
  }

  /** The kept list has exactly the URLs the raw merge has. */
  lemma DedupKeepsEveryUrl(hits: seq<Hit>)
    ensures forall u :: u in Urls(Dedup(hits)) <==> u in Urls(hits)
  {
    DedupFromUrls([], hits);
  }

  /** Continuing the merge from a list with distinct URLs keeps them distinct. */
  lemma {:induction false} DedupFromDistinct(kept: seq<Hit>, hits: seq<Hit>)
    requires Distinct(Urls(kept))
    ensures Distinct(Urls(DedupFrom(kept, hits)))
    decreases |hits|
  {
    if hits != [] {
      var h := hits[0];
      if h.url !in Urls(kept) {
        assert Urls(kept + [h]) == Urls(kept) + [h.url];
      }
      DedupFromDistinct(AddIfNew(kept, h), hits[1..]);
    }
  }

  /** No URL is kept twice. */
  lemma DedupDistinct(hits: seq<Hit>)
    ensures Distinct(Urls(Dedup(hits)))
  {
    DedupFromDistinct([], hits);
  }

  /** Reference definition: the first hit in `hits` that carries URL `u`. */
  function FirstHit(hits: seq<Hit>, u: string): Option<Hit>
    decreases |hits|
  {
    if hits == [] then None
    else if hits[0].url == u then Some(hits[0])
    else FirstHit(hits[1..], u)
  }

  /** Every entry the continued merge adds is new with respect to `kept` and
      is the first hit of `hits` carrying its URL. */
  lemma {:induction false} DedupFromFirstHits(kept: seq<Hit>, hits: seq<Hit>)
    ensures var d := DedupFrom(kept, hits);
      && |kept| <= |d| && d[..|kept|] == kept
      && forall j :: |kept| <= j < |d| ==> d[j].url !in Urls(kept) && FirstHit(hits, d[j].url) == Some(d[j])
    decreases |hits|
  {
    if hits != [] {
      var h := hits[0];
      var next := AddIfNew(kept, h);
      var d := DedupFrom(kept, hits);
      DedupFromFirstHits(next, hits[1..]);
      if h.url in Urls(kept) {
        forall j | |kept| <= j < |d|
          ensures d[j].url !in Urls(kept) && FirstHit(hits, d[j].url) == Some(d[j])
        {
          assert d[j].url != h.url;
        }
      } else {
        assert Urls(next) == Urls(kept) + [h.url];
        assert next[..|kept|] == kept;
        forall j | |kept| <= j < |d|
          ensures d[j].url !in Urls(kept) && FirstHit(hits, d[j].url) == Some(d[j])
        {
          if j == |kept| {
            assert d[j] == next[j] == h;
          } else {
            assert d[j].url !in Urls(next);
            assert d[j].url != h.url;
          }
        }
      }
    }
  }

  /** First seen wins: every kept entry is the first hit of the raw merge
      that carries its URL. */
  lemma DedupKeepsFirstHits(hits: seq<Hit>)
    ensures forall j :: 0 <= j < |Dedup(hits)| ==> FirstHit(hits, Dedup(hits)[j].url) == Some(Dedup(hits)[j])
  {
    DedupFromFirstHits([], hits);
  }

  /** First-seen order: what the merge keeps from the first `p` raw hits is
      a prefix of what it keeps from all of them, so a URL first seen
      earlier is kept earlier. */
  lemma DedupOfPrefixIsPrefix(hits: seq<Hit>, p: nat)
    requires p <= |hits|
    ensures Dedup(hits[..p]) <= Dedup(hits)
  {
    assert hits[..p] + hits[p..] == hits;
    DedupFromAppend([], hits[..p], hits[p..]);
    DedupFromUrls(Dedup(hits[..p]), hits[p..]);
  }

  /** `a` can be obtained from `b` by deleting elements. */
  predicate IsSubsequence<T(==)>(a: seq<T>, b: seq<T>)
    decreases |b|
  {
    if a == [] then true
    else if b == [] then false
    else if a[0] == b[0] then IsSubsequence(a[1..], b[1..])
    else IsSubsequence(a, b[1..])
  }

  /** Dropping the first element of `a` keeps it a subsequence of `b`. */
  lemma {:induction false} SubsequenceDropHead<T>(a: seq<T>, b: seq<T>)
    requires a != [] && IsSubsequence(a, b)
    ensures IsSubsequence(a[1..], b)
    decreases |b|, 1
  {
    if a[0] != b[0] {
      SubsequenceDropHead(a, b[1..]);
      SubsequenceOfTail(a[1..], b);
    } else {
      SubsequenceOfTail(a[1..], b);
    }
  }

  /** A subsequence of `b[1..]` is a subsequence of `b`. */
  lemma {:induction false} SubsequenceOfTail<T>(a: seq<T>, b: seq<T>)
    requires b != [] && IsSubsequence(a, b[1..])
    ensures IsSubsequence(a, b)
    decreases |b|, 0
  {
    if a != [] && a[0] == b[0] {
      SubsequenceDropHead(a, b[1..]);
    }
  }

  /** What the continued merge adds is a subsequence of `hits`. */
  lemma {:induction false} DedupFromSubsequence(kept: seq<Hit>, hits: seq<Hit>)
    ensures |kept| <= |DedupFrom(kept, hits)|
    ensures IsSubsequence(DedupFrom(kept, hits)[|kept|..], hits)
    decreases |hits|
  {
    DedupFromUrls(kept, hits);
    if hits != [] {
      var h := hits[0];
      var next := AddIfNew(kept, h);
      var d := DedupFrom(kept, hits);
      DedupFromSubsequence(next, hits[1..]);
      DedupFromUrls(next, hits[1..]);
      if h.url in Urls(kept) {
        SubsequenceOfTail(d[|kept|..], hits);
      } else {
        assert d[|kept|..][0] == h;
        assert d[|kept|..][1..] == d[|next|..];
      }
    }
  }

  /** The kept list is a subsequence of the raw merge. */
  lemma DedupIsSubsequence(hits: seq<Hit>)
    ensures IsSubsequence(Dedup(hits), hits)
  {
    DedupFromSubsequence([], hits);
    assert DedupFrom([], hits)[0..] == DedupFrom([], hits);
  }

  /** Continuing the merge over hits whose URLs are all new and distinct
      appends them all. */
  lemma {:induction false} DedupFromAllNew(kept: seq<Hit>, hits: seq<Hit>)
    requires Distinct(Urls(hits))
    requires forall u :: u in Urls(hits) ==> u !in Urls(kept)
    ensures DedupFrom(kept, hits) == kept + hits
    decreases |hits|
  {
    if hits != [] {
      var h, rest := hits[0], hits[1..];
      var next := kept + [h];
      assert AddIfNew(kept, h) == next by {
        assert h.url in Urls(hits);
      }
      assert DedupFrom(next, rest) == next + rest by {
        UrlsTail(hits);
        DistinctTail(Urls(hits));
        UrlsSnoc(kept, h);
        forall u | u in Urls(rest)
          ensures u !in Urls(next)
        {
          assert u in Urls(hits);
          assert u != h.url;
        }
        DedupFromAllNew(next, rest);
      }
      assert next + rest == kept + hits;
    }
  }

  lemma UrlsTail(hits: seq<Hit>)
    requires hits != []
    ensures Urls(hits) == [hits[0].url] + Urls(hits[1..])
    ensures Urls(hits)[0] == hits[0].url && Urls(hits)[1..] == Urls(hits[1..])
  {
  }

  /** The tail of a list without repetitions has none and lacks the head. */
  lemma DistinctTail(us: seq<string>)
    requires us != [] && Distinct(us)
    ensures Distinct(us[1..]) && us[0] !in us[1..]
  {
  }

  /** When every URL of the merge is already distinct, nothing is dropped. */
  lemma DedupOfDistinct(hits: seq<Hit>)
    requires Distinct(Urls(hits))
    ensures Dedup(hits) == hits
  {
    DedupFromAllNew([], hits);
  }

  /** What `research_node` returns: the two lists are aligned URL for URL,
      hold at most fifteen entries, are prefixes of the untruncated merge,
      contain no URL twice, and follow first-seen order over the raw merge;
      no other field of the state changes. */
  lemma ResearchResult(state: AgentState, search: SearchRequest -> SearchOutcome)
    ensures var next := Research(state, search);
      var raw := StateMerge(state, search);
      && next.sources == Urls(next.searchResults)
      && |next.searchResults| == (if |Dedup(raw)| < MaxResults then |Dedup(raw)| else MaxResults)
      && next.searchResults == Dedup(raw)[..|next.searchResults|]
      && IsSubsequence(Dedup(raw), raw)
      && (forall j :: 0 <= j < |next.searchResults| ==> FirstHit(raw, next.searchResults[j].url) == Some(next.searchResults[j]))
      && (forall p :: 0 <= p <= |raw| ==> Dedup(raw[..p]) <= Dedup(raw))
      && Distinct(next.sources)
      && next.companyName == state.companyName
      && next.analysisType == state.analysisType
      && next.report == state.report
  {
    var raw := StateMerge(state, search);
    DedupKeepsFirstHits(raw);
    DedupIsSubsequence(raw);
    DedupDistinct(raw);
    forall p | 0 <= p <= |raw|
      ensures Dedup(raw[..p]) <= Dedup(raw)
    {
      DedupOfPrefixIsPrefix(raw, p);
    }
  }

  /** A results list contributes exactly its entries before the first one
      without URL (all of them when every entry has one), in order. */
  lemma {:induction false} UsableIsPrefixBeforeMissingUrl(items: seq<RawResult>)
    ensures var u := Usable(items);
      && |u| <= |items|
      && (forall k :: 0 <= k < |u| ==> items[k].url.Some? && u[k] == ToHit(items[k]))
      && (|u| < |items| ==> items[|u|].url.None?)
    decreases |items|
  {
    if items != [] && items[0].url.Some? {
      UsableIsPrefixBeforeMissingUrl(items[1..]);
      var u := Usable(items);
      assert u == [ToHit(items[0])] + Usable(items[1..]);
      forall k | 1 <= k < |u|
        ensures items[k].url.Some? && u[k] == ToHit(items[k])
      {
        assert items[1..][k - 1] == items[k];
      }
      if |u| < |items| {
        assert items[1..][|u| - 1] == items[|u|];
      }
    }
  }

  /** The research node overwrites the results and sources it is given:
      what it returns depends only on the company, the type and the search
      provider. */
  lemma ResearchIgnoresPriorResults(s1: AgentState, s2: AgentState, search: SearchRequest -> SearchOutcome)
    requires s1.companyName == s2.companyName && s1.analysisType == s2.analysisType
    ensures Research(s1, search).searchResults == Research(s2, search).searchResults
    ensures Research(s1, search).sources == Research(s2, search).sources
  {
  }

  /** An unrecognised type researches exactly as "competition" does. */
  lemma UnknownTypeResearchesAsDefault(state: AgentState, analysisType: string, search: SearchRequest -> SearchOutcome)
    requires analysisType !in KnownTypes
    ensures Research(state.(analysisType := analysisType), search)
         == Research(state.(analysisType := DefaultType), search).(analysisType := analysisType)
  {
  }

  /** When at most fifteen distinct URLs were found, every one of them is
      among the sources. */
  lemma ResearchLosesNothingUnderCap(state: AgentState, search: SearchRequest -> SearchOutcome, u: string)
    requires |Dedup(StateMerge(state, search))| <= MaxResults
    requires u in Urls(StateMerge(state, search))
    ensures u in Research(state, search).sources
  {
    DedupKeepsEveryUrl(StateMerge(state, search));
  }
}
