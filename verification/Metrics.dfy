/** The periodic state tallies (internal/metrics/collector.go). */
module Metrics {
  import opened Wrappers
  import opened Resources

  /** How many items are in state `k`. */
  function Count<T, K(==)>(getState: T -> K, items: seq<T>, k: K): nat {
    if items == [] then 0
    else Count(getState, items[..|items| - 1], k) + (if getState(items[|items| - 1]) == k then 1 else 0)
  }

  function At<K(==)>(totals: map<K, nat>, k: K): nat {
    if k in totals then totals[k] else 0
  }

  /** One more item in state `state`. */
  lemma CountNext<T, K>(getState: T -> K, items: seq<T>, i: nat, k: K)
    requires i < |items|
    ensures Count(getState, items[..i + 1], k)
         == Count(getState, items[..i], k) + (if getState(items[i]) == k then 1 else 0)
  {
    assert items[..i + 1][..i] == items[..i];
  }

  /** One more item per state met, starting from the given totals; states not yet a key are added. */
  method TallyResourceState<T, K(==,!new)>(getState: T -> K, resourceMap: map<K, nat>, resourceList: seq<T>)
    returns (totals: map<K, nat>)
    ensures forall k :: At(totals, k) == At(resourceMap, k) + Count(getState, resourceList, k)
    ensures forall k :: k in totals <==> k in resourceMap || Count(getState, resourceList, k) > 0
    ensures Sum(totals) == Sum(resourceMap) + |resourceList|
  {
    totals := resourceMap;
    for i := 0 to |resourceList|
      invariant forall k :: At(totals, k) == At(resourceMap, k) + Count(getState, resourceList[..i], k)
      invariant forall k :: k in totals <==> k in resourceMap || Count(getState, resourceList[..i], k) > 0
      invariant Sum(totals) == Sum(resourceMap) + i
    {
      var state := getState(resourceList[i]);
      forall k {
        CountNext(getState, resourceList, i, k);
      }
      SumUpdate(totals, state, At(totals, state) + 1);
      totals := totals[state := At(totals, state) + 1];
    }
    assert resourceList[..|resourceList|] == resourceList;
  }

  const REQUEST_STATES: set<RequestState> :=
    {Pending, Approved, Rejected, Started, Complete, Failed, Malformed}

  const REVIEW_STATES: set<ReviewState> :=
    {ReviewApproved, ReviewRejected, ReviewMalformed, ReviewNotFound, ReviewConflict}

  function InitRequestStateMap(): map<RequestState, nat> {
    map s | s in REQUEST_STATES :: 0
  }

  function InitReviewStateMap(): map<ReviewState, nat> {
    map s | s in REVIEW_STATES :: 0
  }

  lemma {:induction false} SumOfZeros<K>(m: map<K, nat>)
    requires forall k :: k in m ==> m[k] == 0
    ensures Sum(m) == 0
    decreases |m|
  {
    if m != map[] {
      var k :| k in m && Sum(m) == m[k] + Sum(m - {k});
      SumOfZeros(m - {k});
    }
  }

  function GetRequestState(r: JobRequest): RequestState {
    r.status.state
  }

  function GetReviewState(r: Review): ReviewState {
    r.state
  }

  // ---------- what the gauges are to show ----------

  /** How many of the listed requests are in this state. */
  ghost function RequestsIn(items: seq<JobRequest>, state: RequestState): nat {
    |set i | 0 <= i < |items| && items[i].status.state == state|
  }

  ghost function ReviewsIn(items: seq<Review>, state: ReviewState): nat {
    |set i | 0 <= i < |items| && items[i].state == state|
  }

  function Where<T, K(==)>(getState: T -> K, items: seq<T>, k: K): set<int> {
    set i | 0 <= i < |items| && getState(items[i]) == k
  }

  lemma WhereNext<T, K>(getState: T -> K, items: seq<T>, k: K)
    requires items != []
    ensures var n := |items| - 1; var rest := Where(getState, items[..n], k);
            n !in rest && Where(getState, items, k) == if getState(items[n]) == k then rest + {n} else rest
  {
    var n := |items| - 1;
    assert forall i :: 0 <= i < n ==> items[..n][i] == items[i];
  }

  lemma {:induction false} CountsWhere<T, K>(getState: T -> K, items: seq<T>, k: K)
    ensures Count(getState, items, k) == |Where(getState, items, k)|
    decreases |items|
  {
    hide Where;
    if items == [] {
      NowhereInNothing(getState, k);
    } else {
      CountsWhere(getState, items[..|items| - 1], k);
      WhereNext(getState, items, k);
    }
  }

  lemma NowhereInNothing<T, K>(getState: T -> K, k: K)
    ensures Where(getState, [], k) == {}
  {
  }

  lemma CountsRequests(items: seq<JobRequest>, state: RequestState)
    ensures Count(GetRequestState, items, state) == RequestsIn(items, state)
  {
    hide Count;
    CountsWhere(GetRequestState, items, state);
    assert Where(GetRequestState, items, state) == set i | 0 <= i < |items| && items[i].status.state == state;
  }

  lemma CountsReviews(items: seq<Review>, state: ReviewState)
    ensures Count(GetReviewState, items, state) == ReviewsIn(items, state)
  {
    hide Count;
    CountsWhere(GetReviewState, items, state);
    assert Where(GetReviewState, items, state) == set i | 0 <= i < |items| && items[i].state == state;
  }

  /** The gauges, one per emitted state; there is none for Conflicted requests or for objects without a state. */
  class MetricCollector {
    var requestGauges: map<RequestState, nat>
    var reviewGauges: map<ReviewState, nat>

    ghost predicate Valid()
      reads this
    {
      requestGauges.Keys == REQUEST_STATES && reviewGauges.Keys == REVIEW_STATES
    }

    constructor (oldRequests: map<RequestState, nat>, oldReviews: map<ReviewState, nat>)
      requires oldRequests.Keys == REQUEST_STATES && oldReviews.Keys == REVIEW_STATES
      ensures Valid() && requestGauges == oldRequests && reviewGauges == oldReviews
    {
      requestGauges, reviewGauges := oldRequests, oldReviews;
    }

    /** Iterates in an arbitrary order, as Go does over a map; a key without a gauge is passed over. */
    method EmitRequestMetrics(totals: map<RequestState, nat>)
      requires Valid()
      modifies this`requestGauges
      ensures Valid()
      ensures requestGauges == map s | s in REQUEST_STATES :: if s in totals then totals[s] else old(requestGauges)[s]
    {
      var todo := totals.Keys;
      while todo != {}
        invariant todo <= totals.Keys && Valid()
        invariant requestGauges ==
                  map s | s in REQUEST_STATES :: if s in totals && s !in todo then totals[s] else old(requestGauges)[s]
        decreases todo
      {
        var k :| k in todo;
        todo := todo - {k};
        if k in REQUEST_STATES {
          requestGauges := requestGauges[k := totals[k]];
        }
      }
    }

    method EmitReviewMetrics(totals: map<ReviewState, nat>)
      requires Valid()
      modifies this`reviewGauges
      ensures Valid()
      ensures reviewGauges == map s | s in REVIEW_STATES :: if s in totals then totals[s] else old(reviewGauges)[s]
    {
      var todo := totals.Keys;
      while todo != {}
        invariant todo <= totals.Keys && Valid()
        invariant reviewGauges ==
                  map s | s in REVIEW_STATES :: if s in totals && s !in todo then totals[s] else old(reviewGauges)[s]
        decreases todo
      {
        var k :| k in todo;
        todo := todo - {k};
        if k in REVIEW_STATES {
          reviewGauges := reviewGauges[k := totals[k]];
        }
      }
    }

    /** Lists first; a failed list leaves every gauge as it was. */
    method Collect(requests: Option<seq<JobRequest>>, reviews: Option<seq<Review>>)
      requires Valid()
      modifies this
      ensures Valid()
      ensures requests.None? || reviews.None? ==>
                requestGauges == old(requestGauges) && reviewGauges == old(reviewGauges)
      ensures requests.Some? && reviews.Some? ==>
                && requestGauges.Keys == {Pending, Approved, Rejected, Started, Complete, Failed, Malformed}
                && (forall s :: s in requestGauges ==> requestGauges[s] == RequestsIn(requests.value, s))
                && reviewGauges.Keys == {ReviewApproved, ReviewRejected, ReviewMalformed, ReviewNotFound, ReviewConflict}
                && (forall s :: s in reviewGauges ==> reviewGauges[s] == ReviewsIn(reviews.value, s))
    {
      if requests.None? {
        return;
      }
      if reviews.None? {
        return;
      }
      var requestTotals := TallyResourceState(GetRequestState, InitRequestStateMap(), requests.value);
      EmitRequestMetrics(requestTotals);
      var reviewTotals := TallyResourceState(GetReviewState, InitReviewStateMap(), reviews.value);
      EmitReviewMetrics(reviewTotals);
      forall s | s in requestGauges
        ensures requestGauges[s] == At(requestTotals, s) == RequestsIn(requests.value, s)
      {
        CountsRequests(requests.value, s);
      }
      forall s | s in reviewGauges
        ensures reviewGauges[s] == At(reviewTotals, s) == ReviewsIn(reviews.value, s)
      {
        CountsReviews(reviews.value, s);
      }
    }
  }

  /** A fresh tally counts every listed object once. */
  method TallyRequests(items: seq<JobRequest>) returns (totals: map<RequestState, nat>)
    ensures Sum(totals) == |items|
    ensures forall s :: s in totals ==> totals[s] == RequestsIn(items, s)
    ensures forall s :: s in totals
              <==> s in {Pending, Approved, Rejected, Started, Complete, Failed, Malformed} || RequestsIn(items, s) > 0
  {
    hide RequestsIn, Count;
    SumOfZeros(InitRequestStateMap());
    totals := TallyResourceState(GetRequestState, InitRequestStateMap(), items);
    forall s
      ensures At(totals, s) == RequestsIn(items, s)
    {
      CountsRequests(items, s);
    }
    assert forall s :: s in totals ==> totals[s] == At(totals, s);
  }
}
