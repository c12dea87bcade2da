/** The `ABCRadio` client: one search is a request to the plays endpoint followed by
    `SearchResult.from_json`, and `continuous_search` pages through the results by raising
    `offset` by `limit` while `offset + limit < total`; it is modelled over any search
    function, of which ClientSearch is the client's own. The HTTP round trip (`requests.get`
    followed by `Response.json()`) is the parameter `fetch`, a function from the requested URL
    to the decoded response or the exception raised on the way. */
module Client {
  import opened Wrappers
  import opened PyJson
  import opened Query
  import opened Entities

  const BaseUrl: string := "https://music.abcradio.net.au/api/v1/plays/search.json"

  /** `available_stations`, the comma-separated list `ABCRadio.__init__` splits. */
  const AvailableStations: seq<string> :=
    ["jazz", "dig", "doublej", "unearthed", "country", "triplej", "classic", "kidslisten"]

  /** `ABCRadio.search`: request `BASE_URL` followed by the query string, then decode. */
  function SearchSpec(fetch: string -> Result<Json>, params: Params): (r: Result<SearchResult>)
  {
    var body :- fetch(BaseUrl + QueryString(params));
    DecodeSearchResult(body)
  }

  method Search(fetch: string -> Result<Json>, params: Params) returns (r: Result<SearchResult>)
    ensures r == SearchSpec(fetch, params)
  {
    var query := ConstructQueryString(params);
    var body := fetch(BaseUrl + query);
    if body.Err? {
      return Err(body.error);
    }
    r := SearchResultFromJson(body.value);
  }

  /** `self.search` as `continuous_search` sees it: a function of the keyword arguments. */
  function ClientSearch(fetch: string -> Result<Json>): Params -> Result<SearchResult>
  {
    params => SearchSpec(fetch, params)
  }

  /** A search without parameters requests the bare endpoint. */
  lemma SearchWithoutParameters(fetch: string -> Result<Json>, params: Params)
    requires NoneSupplied(params)
    ensures SearchSpec(fetch, params) == (var body :- fetch(BaseUrl); DecodeSearchResult(body))
  {
    QueryStringEmptyIff(params);
    assert BaseUrl + "" == BaseUrl;
  }

  // ---- continuous_search ----

  /** The offsets `continuous_search` requests after the first page, given the first page's
      `offset`, `limit` and `total`: `offset + limit` as long as that is below `total`. */
  function FollowOffsets(offset: int, limit: int, total: int): (r: seq<int>)
    requires limit > 0
    ensures r == [] <==> offset + limit >= total
    decreases total - offset
  {
    if offset + limit < total then
      [offset + limit] + FollowOffsets(offset + limit, limit, total)
    else
      []
  }

  /** How many follow-up requests there are: the number `n` with `n * limit < total - offset <=
      (n + 1) * limit`, that is `(total - offset - 1) / limit` when `offset < total`. */
  lemma {:induction false} FollowOffsetsCount(offset: int, limit: int, total: int)
    requires limit > 0
    ensures var n := |FollowOffsets(offset, limit, total)|;
            offset < total ==> n * limit < total - offset <= (n + 1) * limit
    decreases total - offset
  {
    if offset + limit < total {
      var n := |FollowOffsets(offset + limit, limit, total)|;
      FollowOffsetsCount(offset + limit, limit, total);
      assert (n + 1) * limit == n * limit + limit;
      assert (n + 2) * limit == (n + 1) * limit + limit;
    }
  }

  /** The k-th follow-up request is at `offset + (k + 1) * limit`, and every one of them is
      below `total`. */
  lemma {:induction false} FollowOffsetsAt(offset: int, limit: int, total: int, k: nat)
    requires limit > 0 && k < |FollowOffsets(offset, limit, total)|
    ensures FollowOffsets(offset, limit, total)[k] == offset + (k + 1) * limit
    ensures FollowOffsets(offset, limit, total)[k] < total
    decreases k
  {
    if k > 0 {
      FollowOffsetsAt(offset + limit, limit, total, k - 1);
    }
  }

  /** When the limit is not positive and the first page does not already reach the total, the
      loop condition `offset + limit < total` stays true for ever: the generator never ends. */
  lemma {:induction false} NonPositiveLimitNeverEnds(offset: int, limit: int, total: int, k: nat)
    requires limit <= 0 && offset + limit < total
    ensures offset + k * limit + limit < total
  {
    assert k * limit <= 0 by {
      if k > 0 {
        NonPositiveLimitNeverEnds(offset, limit, total, k - 1);
        assert k * limit == (k - 1) * limit + limit;
      }
    }
  }

  /** Why the generator stopped. */
  datatype Stop =
    | Exhausted              // `offset + limit < total` became false
    | Raised(error: PyError) // a search, or the comparison itself, raised
    | Unbounded              // the limit is not positive: the loop would never end

  /** The searches at the given offsets, in order, up to the first that raises. */
  function SearchAll(searchAt: int -> Result<SearchResult>, offsets: seq<int>)
    : (r: (seq<SearchResult>, Option<PyError>))
    ensures |r.0| <= |offsets|
    ensures r.1.None? ==> |r.0| == |offsets|
    ensures forall k :: 0 <= k < |r.0| ==> searchAt(offsets[k]) == Ok(r.0[k])
    ensures r.1.Some? ==> |r.0| < |offsets| && searchAt(offsets[|r.0|]) == Err(r.1.value)
  {
    if offsets == [] then
      ([], None)
    else
      var init := offsets[..|offsets| - 1];
      assert forall k :: 0 <= k < |init| ==> init[k] == offsets[k];
      var (done, error) := SearchAll(searchAt, init);
      if error.Some? then
        (done, error)
      else
        match searchAt(offsets[|offsets| - 1])
        case Ok(page) => (done + [page], None)
        case Err(e) => (done, Some(e))
  }

  /** The search `continuous_search` makes at a given offset: the caller's parameters with
      `offset` replaced. */
  function SearchAtOffset(search: Params -> Result<SearchResult>, params: Params): int -> Result<SearchResult>
  {
    offset => search(params.(offset := Some(offset)))
  }

  /** What `continuous_search` yields after its first page, and why it stops, given the
      search it makes at each offset. Only the first page's `total`, `offset` and `limit` are
      read; Python's `+` and `<` accept ints and bools and raise TypeError on None, lists and
      dicts. */
  function Paging(first: SearchResult, searchAt: int -> Result<SearchResult>): (r: (seq<SearchResult>, Stop))
    ensures |r.0| >= 1 && r.0[0] == first
    ensures !(AsNumber(first.total).Some? && AsNumber(first.offset).Some? && AsNumber(first.limit).Some?)
            ==> r == ([first], Raised(TypeError))
    ensures r.1 == Unbounded ==> r.0 == [first]
  {
    match (AsNumber(first.total), AsNumber(first.offset), AsNumber(first.limit))
    case (Some(total), Some(offset), Some(limit)) =>
      if offset + limit >= total then
        ([first], Exhausted)
      else if limit <= 0 then
        ([first], Unbounded)
      else
        var (rest, error) := SearchAll(searchAt, FollowOffsets(offset, limit, total));
        ([first] + rest, if error.Some? then Raised(error.value) else Exhausted)
    case _ => ([first], Raised(TypeError))
  }

  /** What `continuous_search` yields and why it stops: nothing when the first search raises,
      otherwise the first page followed by the searches at the following offsets. */
  function ContinuousSpec(search: Params -> Result<SearchResult>, params: Params)
    : (r: (seq<SearchResult>, Stop))
    ensures search(params).Err? <==> r.0 == []
    ensures search(params).Err? ==> r.1 == Raised(search(params).error)
    ensures r.0 != [] ==> r.0[0] == search(params).value
  {
    match search(params)
    case Err(e) => ([], Raised(e))
    case Ok(first) => Paging(first, SearchAtOffset(search, params))
  }

  /** `ABCRadio.continuous_search`, with the pages it yields collected in order. `search` is
      the search it calls, `ClientSearch(fetch)` for the client itself. */
  method ContinuousSearch(search: Params -> Result<SearchResult>, params: Params)
    returns (pages: seq<SearchResult>, stop: Stop)
    ensures (pages, stop) == ContinuousSpec(search, params)
  {
    var initial := search(params);
    if initial.Err? {
      return [], Raised(initial.error);
    }
    var first := initial.value;
    pages := [first];
    var numbers := (AsNumber(first.total), AsNumber(first.offset), AsNumber(first.limit));
    if !(numbers.0.Some? && numbers.1.Some? && numbers.2.Some?) {
      return pages, Raised(TypeError);
    }
    var total, offset, limit := numbers.0.value, numbers.1.value, numbers.2.value;
    if offset + limit >= total {
      return pages, Exhausted;
    }
    if limit <= 0 {
      return pages, Unbounded;
    }
    var rest, error := FollowPages(search, params, offset, limit, total);
    pages := pages + rest;
    stop := if error.Some? then Raised(error.value) else Exhausted;
  }

  /** The loop of `continuous_search`: raise `offset` by `limit` and search again while
      `offset + limit < total`, up to the first search that raises. */
  method FollowPages(search: Params -> Result<SearchResult>, params: Params, offset0: int, limit: int, total: int)
    returns (pages: seq<SearchResult>, error: Option<PyError>)
    requires limit > 0
    ensures (pages, error) == SearchAll(SearchAtOffset(search, params), FollowOffsets(offset0, limit, total))
  {
    var offset := offset0;
    ghost var searchAt := SearchAtOffset(search, params);
    ghost var all := FollowOffsets(offset, limit, total);
    ghost var followed: seq<int> := [];
    pages := [];
    while offset + limit < total
      invariant followed + FollowOffsets(offset, limit, total) == all
      invariant SearchAll(searchAt, followed) == (pages, None)
      decreases total - offset
    {
      NextOffset(all, followed, offset, limit, total);
      ghost var before := followed;
      offset := offset + limit;
      followed := followed + [offset];
      var page := search(params.(offset := Some(offset)));
      assert searchAt(offset) == page;
      SearchAllSnoc(searchAt, before, offset);
      if page.Err? {
        SearchAllStopsAtFailure(searchAt, all, |followed|);
        return pages, Some(page.error);
      }
      pages := pages + [page.value];
    }
    assert followed == all;
    return pages, None;
  }

  /** One turn of the loop: the next offset is the next entry of FollowOffsets. */
  lemma NextOffset(all: seq<int>, followed: seq<int>, offset: int, limit: int, total: int)
    requires limit > 0 && offset + limit < total
    requires followed + FollowOffsets(offset, limit, total) == all
    ensures (followed + [offset + limit]) + FollowOffsets(offset + limit, limit, total) == all
    ensures |followed| < |all| && all[..|followed| + 1] == followed + [offset + limit]
  {
    assert FollowOffsets(offset, limit, total) == [offset + limit] + FollowOffsets(offset + limit, limit, total);
    assert (followed + [offset + limit]) + FollowOffsets(offset + limit, limit, total)
        == followed + ([offset + limit] + FollowOffsets(offset + limit, limit, total));
  }

  /** SearchAll over one more offset, in terms of the shorter run. */
  lemma SearchAllSnoc(searchAt: int -> Result<SearchResult>, offsets: seq<int>, next: int)
    ensures var shorter := SearchAll(searchAt, offsets);
            SearchAll(searchAt, offsets + [next])
            == if shorter.1.Some? then shorter
               else match searchAt(next)
                    case Ok(page) => (shorter.0 + [page], None)
                    case Err(e) => (shorter.0, Some(e))
  {
    assert (offsets + [next])[..|offsets|] == offsets;
  }

  /** Once a search has raised, the later offsets are never requested. */
  lemma {:induction false} SearchAllStopsAtFailure(searchAt: int -> Result<SearchResult>,
                                                   offsets: seq<int>, n: nat)
    requires n <= |offsets| && SearchAll(searchAt, offsets[..n]).1.Some?
    ensures SearchAll(searchAt, offsets) == SearchAll(searchAt, offsets[..n])
    decreases |offsets| - n
  {
    if n < |offsets| {
      var init := offsets[..|offsets| - 1];
      assert init[..n] == offsets[..n];
      SearchAllStopsAtFailure(searchAt, init, n);
    } else {
      assert offsets[..n] == offsets;
    }
  }

  // ---- Properties of continuous_search ----

  /** The numbers `continuous_search` reads from its first page. */
  predicate Numbers(first: SearchResult, total: int, offset: int, limit: int)
  {
    AsNumber(first.total) == Some(total) && AsNumber(first.offset) == Some(offset)
    && AsNumber(first.limit) == Some(limit)
  }

  /** When the first page already reaches the total, there is exactly one search. */
  lemma SinglePage(first: SearchResult, searchAt: int -> Result<SearchResult>, total: int, offset: int, limit: int)
    requires Numbers(first, total, offset, limit) && offset + limit >= total
    ensures Paging(first, searchAt) == ([first], Exhausted)
  {
  }

  /** With a positive limit, the k-th page after the first is the search at offset
      `offset + k * limit`, which is below `total`. */
  lemma FollowUpPages(first: SearchResult, searchAt: int -> Result<SearchResult>,
                      total: int, offset: int, limit: int, k: nat)
    requires Numbers(first, total, offset, limit) && limit > 0
    requires 1 <= k < |Paging(first, searchAt).0|
    ensures offset + k * limit < total
    ensures searchAt(offset + k * limit) == Ok(Paging(first, searchAt).0[k])
  {
    var offsets := FollowOffsets(offset, limit, total);
    var (rest, _) := SearchAll(searchAt, offsets);
    assert Paging(first, searchAt).0 == [first] + rest;
    FollowOffsetsAt(offset, limit, total, k - 1);
  }

  /** A run that ends normally with a positive limit makes one search more than there are
      follow-up offsets. */
  lemma ExhaustedCount(first: SearchResult, searchAt: int -> Result<SearchResult>, total: int, offset: int, limit: int)
    requires Numbers(first, total, offset, limit) && limit > 0
    requires Paging(first, searchAt).1 == Exhausted
    ensures |Paging(first, searchAt).0| == 1 + |FollowOffsets(offset, limit, total)|
  {
  }

  /** The documented scenario: a first page with 142 plays, offset 0 and limit 10. If every
      search succeeds, there are exactly 15 searches, the last at offset 140. */
  lemma FifteenSearches(first: SearchResult, searchAt: int -> Result<SearchResult>)
    requires Numbers(first, 142, 0, 10)
    requires forall k :: 1 <= k <= 14 ==> searchAt(10 * k).Ok?
    ensures Paging(first, searchAt).1 == Exhausted
    ensures |Paging(first, searchAt).0| == 15
    ensures searchAt(140) == Ok(Paging(first, searchAt).0[14])
  {
    var offsets := FollowOffsets(0, 10, 142);
    FollowOffsetsCount(0, 10, 142);
    assert |offsets| == 14;
    forall k | 0 <= k < 14
      ensures searchAt(offsets[k]).Ok?
    {
      FollowOffsetsAt(0, 10, 142, k);
      assert searchAt(10 * (k + 1)).Ok?;
    }
    SearchAllSucceeds(searchAt, offsets);
    FollowUpPages(first, searchAt, 142, 0, 10, 14);
  }

  /** When every search succeeds, so does the whole run over the offsets. */
  lemma {:induction false} SearchAllSucceeds(searchAt: int -> Result<SearchResult>, offsets: seq<int>)
    requires forall k :: 0 <= k < |offsets| ==> searchAt(offsets[k]).Ok?
    ensures SearchAll(searchAt, offsets).1 == None
  {
    if offsets != [] {
      var init := offsets[..|offsets| - 1];
      assert forall k :: 0 <= k < |init| ==> init[k] == offsets[k];
      SearchAllSucceeds(searchAt, init);
    }
  }

  /** `Unbounded` is reported exactly when the source's loop would never end: the limit is not
      positive and the first page does not reach the total, so the condition holds at every
      step. */
  lemma UnboundedNeverEnds(first: SearchResult, searchAt: int -> Result<SearchResult>, total: int, offset: int, limit: int)
    requires Numbers(first, total, offset, limit)
    ensures Paging(first, searchAt).1 == Unbounded <==> limit <= 0 && offset + limit < total
    ensures Paging(first, searchAt).1 == Unbounded ==> forall k: nat :: offset + k * limit + limit < total
  {
    if limit <= 0 && offset + limit < total {
      forall k: nat ensures offset + k * limit + limit < total {
        NonPositiveLimitNeverEnds(offset, limit, total, k);
      }
    }
  }

  /** With the client's own search, the first page is the decoded response to the request for
      the base URL followed by the caller's query string. */
  lemma ContinuousFirstRequest(fetch: string -> Result<Json>, params: Params)
    ensures ContinuousSpec(ClientSearch(fetch), params).0 != [] ==>
              fetch(BaseUrl + QueryString(params)).Ok?
              && DecodeSearchResult(fetch(BaseUrl + QueryString(params)).value)
                 == Ok(ContinuousSpec(ClientSearch(fetch), params).0[0])
  {
  }
}
