/**
 * The frontend's visualization store: the list of requests with its
 * optimistic create, delete (reverted on failure) and retry, the fetch that
 * accepts a bare list or a page, filters and scope merged key by key, the
 * status counts, and what is persisted. Each API call's answer is a
 * parameter of the action that makes it.
 */
module VisualizationStore {
  import opened Common
  import A = ApiClient

  /** A visualization request as the list holds it: its id, its status and its other fields. */
  datatype VizRequest = VizRequest(id: int, status: string, fields: Dict)

  datatype Pagination = Pagination(page: int, pageSize: int, total: int, hasNext: bool, hasPrev: bool)

  const INITIAL_FILTERS: Dict := map["status" := VStr("all"), "screenType" := VStr("all"),
                                     "sortBy" := VStr("created_at"), "sortOrder" := VStr("desc")]
  const INITIAL_PAGINATION := Pagination(1, 20, 0, false, false)
  const INITIAL_SCOPE: Dict := map["hasPatio" := VBool(false), "hasWindows" := VBool(true),
                                   "hasDoors" := VBool(false), "doorType" := VNone,
                                   "windowCount" := VNum(0.0), "doorCount" := VNum(0.0)]

  // ---------------------------------------------------------------------
  // The list operations
  // ---------------------------------------------------------------------

  /** `requests.filter(req => req.id !== id)`. */
  function RemoveId(rs: seq<VizRequest>, id: int): (r: seq<VizRequest>)
    ensures |r| <= |rs|
  {
    if rs == [] then []
    else (if rs[0].id != id then [rs[0]] else []) + RemoveId(rs[1..], id)
  }

  /** The filter keeps exactly the entries with another id. */
  lemma {:induction false} RemoveIdMembers(rs: seq<VizRequest>, id: int, x: VizRequest)
    ensures x in RemoveId(rs, id) <==> x in rs && x.id != id
  {
    if rs != [] {
      RemoveIdMembers(rs[1..], id, x);
      assert rs == [rs[0]] + rs[1..];
    }
  }

  /** Nothing is removed when no entry has the id. */
  lemma {:induction false} RemoveAbsentId(rs: seq<VizRequest>, id: int)
    requires forall i :: 0 <= i < |rs| ==> rs[i].id != id
    ensures RemoveId(rs, id) == rs
  {
    if rs != [] {
      RemoveAbsentId(rs[1..], id);
      assert [rs[0]] + rs[1..] == rs;
    }
  }

  /** `requests.map(req => req.id === id ? updated : req)`. */
  function ReplaceId(rs: seq<VizRequest>, id: int, updated: VizRequest): (r: seq<VizRequest>)
    ensures |r| == |rs|
  {
    if rs == [] then []
    else [if rs[0].id == id then updated else rs[0]] + ReplaceId(rs[1..], id, updated)
  }

  /** Exactly the entries with the id are replaced, each in its place; the others stay. */
  lemma {:induction false} ReplaceIdExact(rs: seq<VizRequest>, id: int, updated: VizRequest)
    ensures forall i :: 0 <= i < |rs| && rs[i].id == id ==> ReplaceId(rs, id, updated)[i] == updated
    ensures forall i :: 0 <= i < |rs| && rs[i].id != id ==> ReplaceId(rs, id, updated)[i] == rs[i]
  {
    if rs != [] {
      ReplaceIdExact(rs[1..], id, updated);
      var r := ReplaceId(rs, id, updated);
      assert forall i :: 1 <= i < |rs| ==> r[i] == ReplaceId(rs[1..], id, updated)[i - 1] && rs[i] == rs[1..][i - 1];
    }
  }

  /** `requests.find(req => req.id === id)`: the first entry with the id. */
  function RequestById(rs: seq<VizRequest>, id: int): (r: Option<VizRequest>)
    ensures r.Some? <==> exists i :: 0 <= i < |rs| && rs[i].id == id
    ensures r.Some? ==> exists i :: 0 <= i < |rs| && rs[i] == r.value && r.value.id == id &&
                          forall j :: 0 <= j < i ==> rs[j].id != id
  {
    if rs == [] then None
    else if rs[0].id == id then Some(rs[0])
    else
      var r := RequestById(rs[1..], id);
      assert forall i :: 1 <= i < |rs| ==> rs[i] == rs[1..][i - 1];
      assert r.Some? ==> exists i :: 1 <= i < |rs| && rs[i] == r.value && r.value.id == id &&
                           forall j :: 0 <= j < i ==> rs[j].id != id by {
        if r.Some? {
          var k :| 0 <= k < |rs[1..]| && rs[1..][k] == r.value && r.value.id == id &&
                   forall j :: 0 <= j < k ==> rs[1..][j].id != id;
          assert rs[k + 1] == r.value;
          assert forall j :: 0 <= j < k + 1 ==> rs[j].id != id by {
            forall j | 0 <= j < k + 1 ensures rs[j].id != id {
              if j > 0 { assert rs[j] == rs[1..][j - 1]; }
            }
          }
        }
      }
      r
  }

  /** `requests.filter(req => req.status === status)`: every entry with the status, in order. */
  function ByStatus(rs: seq<VizRequest>, status: string): (r: seq<VizRequest>)
    ensures |r| <= |rs|
    ensures IsSubsequence(r, rs)
    ensures forall x :: multiset(r)[x] == if x.status == status then multiset(rs)[x] else 0
  {
    if rs == [] then []
    else
      var rest := ByStatus(rs[1..], status);
      assert multiset(rs) == multiset{rs[0]} + multiset(rs[1..]) by { assert rs == [rs[0]] + rs[1..]; }
      if rs[0].status == status then
        assert ([rs[0]] + rest)[1..] == rest;
        assert multiset([rs[0]] + rest) == multiset{rs[0]} + multiset(rest);
        [rs[0]] + rest
      else
        SubsequenceSkip(rest, rs);
        rest
  }

  /** So an entry is kept exactly when it is listed and has the status. */
  lemma ByStatusMembers(rs: seq<VizRequest>, status: string)
    ensures forall x :: x in ByStatus(rs, status) <==> x in rs && x.status == status
  {
  }

  /** The number of entries with the status. */
  function CountStatus(rs: seq<VizRequest>, status: string): nat
  {
    if rs == [] then 0 else (if rs[0].status == status then 1 else 0) + CountStatus(rs[1..], status)
  }

  /** The status filter keeps one entry per entry with the status. */
  lemma {:induction false} ByStatusCount(rs: seq<VizRequest>, status: string)
    ensures |ByStatus(rs, status)| == CountStatus(rs, status)
  {
    if rs != [] {
      ByStatusCount(rs[1..], status);
    }
  }

  /** `getStats`. Completed requests are those whose status is 'complete'. */
  datatype Stats = Stats(total: nat, pending: nat, processing: nat, completed: nat, failed: nat)

  function GetStats(rs: seq<VizRequest>): (st: Stats)
    ensures st.total == |rs|
    ensures st.pending == CountStatus(rs, "pending") && st.processing == CountStatus(rs, "processing")
    ensures st.completed == CountStatus(rs, "complete") && st.failed == CountStatus(rs, "failed")
  {
    Stats(|rs|, CountStatus(rs, "pending"), CountStatus(rs, "processing"), CountStatus(rs, "complete"),
          CountStatus(rs, "failed"))
  }

  /** The four buckets never count more requests than there are. */
  lemma {:induction false} StatsWithinTotal(rs: seq<VizRequest>)
    ensures var st := GetStats(rs); st.pending + st.processing + st.completed + st.failed <= st.total
  {
    if rs != [] {
      StatsWithinTotal(rs[1..]);
    }
  }

  // ---------------------------------------------------------------------
  // Fetching
  // ---------------------------------------------------------------------

  /**
   * The fetch API's answer: a bare list, or an object with `results` when
   * it has them, `count` when non-zero and whether there are next and
   * previous pages. An object without results is itself taken as a request.
   */
  datatype Body =
    | ListBody(items: seq<VizRequest>)
    | ObjectBody(results: Option<seq<VizRequest>>, asRequest: VizRequest, count: Option<int>, next: bool, previous: bool)

  /** `response.results || response`, wrapped in a list unless it is one. */
  function Fetched(b: Body): (rs: seq<VizRequest>)
    ensures b.ListBody? ==> rs == b.items
    ensures b.ObjectBody? && b.results.Some? ==> rs == b.results.value
    ensures b.ObjectBody? && b.results.None? ==> rs == [b.asRequest]
  {
    match b
    case ListBody(items) => items
    case ObjectBody(results, asRequest, _, _, _) => if results.Some? then results.value else [asRequest]
  }

  /** `response.count || (isArray ? requests.length : 1)`: the count when non-zero, else the list's length. */
  function FetchedTotal(b: Body): (t: int)
    ensures b.ObjectBody? && b.count.Some? && b.count.value != 0 ==> t == b.count.value
    ensures !(b.ObjectBody? && b.count.Some? && b.count.value != 0) ==> t == |Fetched(b)|
  {
    if b.ObjectBody? && b.count.Some? && b.count.value != 0 then b.count.value
    else if b.ListBody? || b.results.Some? then |Fetched(b)|
    else 1
  }

  /** The page the store records for a fetched body. */
  function PageOf(b: Body, page: int, pageSize: int): (p: Pagination)
    ensures p.page == page && p.pageSize == pageSize && p.total == FetchedTotal(b)
    ensures p.hasNext <==> b.ObjectBody? && b.next
    ensures p.hasPrev <==> b.ObjectBody? && b.previous
  {
    Pagination(page, pageSize, FetchedTotal(b), b.ObjectBody? && b.next, b.ObjectBody? && b.previous)
  }

  /** The query: page and page size, then the stored filters, then the call's own filters, each overriding the one before. */
  function QueryParams(page: int, pageSize: int, stored: Dict, given: Dict): (q: Dict)
    ensures forall k :: k in given ==> k in q && q[k] == given[k]
    ensures forall k :: k in stored && k !in given ==> k in q && q[k] == stored[k]
    ensures "page" in q && ("page" !in stored && "page" !in given ==> q["page"] == VNum(page as real))
  {
    map["page" := VNum(page as real), "page_size" := VNum(pageSize as real)] + stored + given
  }

  /** An API answer: its body, or the error `handleApiCall` threw. */
  datatype Answer<T> = Done(value: T) | Failed(error: A.ProcessedError)

  /** The filters `setFilters` leaves: the given keys replaced or added, the others kept. */
  function MergeFilters(filters: Dict, given: Dict): (f: Dict)
    ensures f.Keys == filters.Keys + given.Keys
    ensures forall k :: k in given ==> f[k] == given[k]
    ensures forall k :: k in filters && k !in given ==> f[k] == filters[k]
  {
    filters + given
  }

  /** What is persisted: the screen types and the filters only. */
  datatype Persisted = Persisted(screenTypes: Val, filters: Dict)

  class Store {
    var requests: seq<VizRequest>
    var screenTypes: Val
    var isLoading: bool
    var error: Option<string>
    var selectedRequest: Option<VizRequest>
    var filters: Dict
    var pagination: Pagination
    var scope: Dict

    constructor ()
      ensures requests == [] && screenTypes == VList([]) && !isLoading && error == None && selectedRequest == None
      ensures filters == INITIAL_FILTERS && pagination == INITIAL_PAGINATION && scope == INITIAL_SCOPE
    {
      requests, screenTypes, isLoading, error := [], VList([]), false, None;
      selectedRequest, filters, pagination, scope := None, INITIAL_FILTERS, INITIAL_PAGINATION, INITIAL_SCOPE;
    }

    /** `partialize`. */
    function Persist(): (p: Persisted)
      reads this
      ensures p.screenTypes == screenTypes && p.filters == filters
    {
      Persisted(screenTypes, filters)
    }

    /**
     * `fetchRequests`: sends the query, then stores the fetched list and
     * its page, or the error's message. `given` is the rest of the options
     * once the page and the page size are taken out.
     */
    method FetchRequests(page: Option<int>, pageSize: Option<int>, given: Dict, answer: Answer<Body>)
      returns (query: Dict)
      modifies this
      ensures query == QueryParams(if page.Some? then page.value else 1, if pageSize.Some? then pageSize.value else 20,
                                   old(filters), given)
      ensures answer.Done? ==> (requests == Fetched(answer.value) && error == None &&
                                pagination == PageOf(answer.value, if page.Some? then page.value else 1,
                                                     if pageSize.Some? then pageSize.value else 20))
      ensures answer.Failed? ==> (requests == old(requests) && pagination == old(pagination) &&
                                  error == Some(A.StoreErrorText(answer.error, "Failed to fetch requests")))
      ensures !isLoading && screenTypes == old(screenTypes) && selectedRequest == old(selectedRequest)
      ensures filters == old(filters) && scope == old(scope)
    {
      var p := if page.Some? then page.value else 1;
      var size := if pageSize.Some? then pageSize.value else 20;
      isLoading, error := true, None;
      query := QueryParams(p, size, filters, given);
      match answer {
        case Done(body) =>
          requests := Fetched(body);
          isLoading := false;
          pagination := PageOf(body, p, size);
        case Failed(e) =>
          error, isLoading := Some(A.StoreErrorText(e, "Failed to fetch requests")), false;
      }
    }

    /**
     * `createRequest`: the new request goes first and the rest stay as they
     * were; the promise resolves with it, or rejects with the API's error.
     */
    method CreateRequest(answer: Answer<VizRequest>) returns (settled: Answer<VizRequest>)
      modifies this
      ensures settled == answer
      ensures answer.Done? ==> requests == [answer.value] + old(requests) && error == None
      ensures answer.Failed? ==> (requests == old(requests) &&
                                  error == Some(A.StoreErrorText(answer.error, "Failed to create request")))
      ensures !isLoading && screenTypes == old(screenTypes) && selectedRequest == old(selectedRequest)
      ensures filters == old(filters) && pagination == old(pagination) && scope == old(scope)
    {
      isLoading, error := true, None;
      match answer {
        case Done(r) =>
          requests, isLoading, error := [r] + requests, false, None;
        case Failed(e) =>
          error, isLoading := Some(A.StoreErrorText(e, "Failed to create request")), false;
      }
      settled := answer;
    }

    /**
     * `deleteRequest`: every entry with the id is removed at once; if the
     * API then fails, the list read before the removal is put back and the
     * error is thrown on.
     */
    method DeleteRequest(id: int, answer: Answer<()>) returns (settled: Answer<()>)
      modifies this
      ensures settled == answer
      ensures answer.Done? ==> requests == RemoveId(old(requests), id) && error == old(error)
      ensures answer.Failed? ==> (requests == old(requests) &&
                                  error == Some(A.StoreErrorText(answer.error, "Failed to delete request")))
      ensures isLoading == old(isLoading) && screenTypes == old(screenTypes) && selectedRequest == old(selectedRequest)
      ensures filters == old(filters) && pagination == old(pagination) && scope == old(scope)
    {
      var originalRequests := requests;
      requests := RemoveId(requests, id);
      if answer.Failed? {
        requests := originalRequests;
        error := Some(A.StoreErrorText(answer.error, "Failed to delete request"));
      }
      settled := answer;
    }

    /**
     * `retryRequest`: the entries with the id become the request the API
     * returns, which the promise resolves with; an error is thrown on.
     */
    method RetryRequest(id: int, answer: Answer<VizRequest>) returns (settled: Answer<VizRequest>)
      modifies this
      ensures settled == answer
      ensures answer.Done? ==> requests == ReplaceId(old(requests), id, answer.value) && error == None
      ensures answer.Failed? ==> (requests == old(requests) &&
                                  error == Some(A.StoreErrorText(answer.error, "Failed to retry request")))
      ensures !isLoading && screenTypes == old(screenTypes) && selectedRequest == old(selectedRequest)
      ensures filters == old(filters) && pagination == old(pagination) && scope == old(scope)
    {
      isLoading, error := true, None;
      match answer {
        case Done(r) =>
          requests, isLoading := ReplaceId(requests, id, r), false;
        case Failed(e) =>
          error, isLoading := Some(A.StoreErrorText(e, "Failed to retry request")), false;
      }
      settled := answer;
    }

    /** `fetchScreenTypes`: what the API returns is stored as it is; a failure changes nothing. */
    method FetchScreenTypes(answer: Answer<Val>) returns (result: Val)
      modifies this
      ensures answer.Done? ==> screenTypes == answer.value && result == answer.value
      ensures answer.Failed? ==> screenTypes == old(screenTypes) && result == VList([])
      ensures requests == old(requests) && isLoading == old(isLoading) && error == old(error)
      ensures selectedRequest == old(selectedRequest) && filters == old(filters) && pagination == old(pagination)
      ensures scope == old(scope)
    {
      if answer.Done? {
        screenTypes := answer.value;
        result := answer.value;
      } else {
        result := VList([]);
      }
    }

    method SetSelectedRequest(r: Option<VizRequest>)
      modifies this
      ensures selectedRequest == r && requests == old(requests) && filters == old(filters) && scope == old(scope)
      ensures screenTypes == old(screenTypes) && isLoading == old(isLoading) && error == old(error)
      ensures pagination == old(pagination)
    {
      selectedRequest := r;
    }

    method ClearSelectedRequest()
      modifies this
      ensures selectedRequest == None && requests == old(requests) && filters == old(filters) && scope == old(scope)
      ensures screenTypes == old(screenTypes) && isLoading == old(isLoading) && error == old(error)
      ensures pagination == old(pagination)
    {
      selectedRequest := None;
    }

    method ClearError()
      modifies this
      ensures error == None && requests == old(requests) && filters == old(filters) && scope == old(scope)
      ensures screenTypes == old(screenTypes) && isLoading == old(isLoading) && selectedRequest == old(selectedRequest)
      ensures pagination == old(pagination)
    {
      error := None;
    }

    /** `setFilters`: a merge that changes only the given keys. */
    method SetFilters(given: Dict)
      modifies this
      ensures filters == MergeFilters(old(filters), given)
      ensures requests == old(requests) && scope == old(scope) && selectedRequest == old(selectedRequest)
      ensures screenTypes == old(screenTypes) && isLoading == old(isLoading) && error == old(error)
      ensures pagination == old(pagination)
    {
      filters := MergeFilters(filters, given);
    }

    method ClearFilters()
      modifies this
      ensures filters == INITIAL_FILTERS
      ensures requests == old(requests) && scope == old(scope) && selectedRequest == old(selectedRequest)
      ensures screenTypes == old(screenTypes) && isLoading == old(isLoading) && error == old(error)
      ensures pagination == old(pagination)
    {
      filters := INITIAL_FILTERS;
    }

    /** `setScope(key, value)`: one key of the scope set, the others kept. */
    method SetScope(key: string, value: Val)
      modifies this
      ensures scope == old(scope)[key := value]
      ensures forall k :: k in old(scope) && k != key ==> k in scope && scope[k] == old(scope)[k]
      ensures requests == old(requests) && filters == old(filters) && selectedRequest == old(selectedRequest)
      ensures screenTypes == old(screenTypes) && isLoading == old(isLoading) && error == old(error)
      ensures pagination == old(pagination)
    {
      scope := scope[key := value];
    }

    method ResetScope()
      modifies this
      ensures scope == INITIAL_SCOPE
      ensures requests == old(requests) && filters == old(filters) && selectedRequest == old(selectedRequest)
      ensures screenTypes == old(screenTypes) && isLoading == old(isLoading) && error == old(error)
      ensures pagination == old(pagination)
    {
      scope := INITIAL_SCOPE;
    }

    /**
     * `refresh`: the first page with the stored filters, and the screen
     * types. The two calls write different fields, so running them one
     * after the other leaves the state running them together does.
     */
    method Refresh(requestsAnswer: Answer<Body>, typesAnswer: Answer<Val>) returns (query: Dict)
      modifies this
      ensures query == QueryParams(1, 20, old(filters), map[])
      ensures requestsAnswer.Done? ==> (requests == Fetched(requestsAnswer.value) && error == None &&
                                        pagination == PageOf(requestsAnswer.value, 1, 20))
      ensures requestsAnswer.Failed? ==> (requests == old(requests) && pagination == old(pagination) &&
                                          error == Some(A.StoreErrorText(requestsAnswer.error, "Failed to fetch requests")))
      ensures typesAnswer.Done? ==> screenTypes == typesAnswer.value
      ensures typesAnswer.Failed? ==> screenTypes == old(screenTypes)
      ensures !isLoading && selectedRequest == old(selectedRequest) && filters == old(filters) && scope == old(scope)
    {
      query := FetchRequests(None, None, map[], requestsAnswer);
      var types := FetchScreenTypes(typesAnswer);
    }
  }

  /** A create then a successful delete of the same new id gives back the list as it was. */
  lemma CreateThenDelete(rs: seq<VizRequest>, r: VizRequest)
    requires forall i :: 0 <= i < |rs| ==> rs[i].id != r.id
    ensures RemoveId([r] + rs, r.id) == rs
  {
    assert ([r] + rs)[1..] == rs;
    RemoveAbsentId(rs, r.id);
  }
}
