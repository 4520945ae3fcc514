/**
 * The two external services the synchroniser writes to, as state plus calls
 * whose outcome is an input.
 *
 * - `Store<T>`: the Kubernetes API server's collection of one kind of mirror,
 *   keyed by namespace and name. `Create` succeeds when the call goes through
 *   (`ok`) and the key is free; `Update` when it goes through and the key
 *   exists. Every attempted call is logged.
 * - `Hosting`: the hosting service's pull-request endpoints. Opening a pull
 *   request succeeds when the service assigns a number (`numberGiven`); a review
 *   request succeeds when `ok`.
 *
 * Each call's effect is also given as a function on plain values
 * (`CreateSpec`, `UpdateSpec`, `OpenSpec`, `RequestReviewSpec`), so that whole
 * passes can be specified and reasoned about without the heap.
 */
module Cluster {
  import opened Wrappers
  import opened Objects

  datatype Call = CreateCall(key: ObjectKey, success: bool) | UpdateCall(key: ObjectKey, success: bool)

  datatype StoreState<T> = StoreState(objects: map<ObjectKey, T>, calls: seq<Call>)

  function CreateSpec<T>(s: StoreState<T>, key: ObjectKey, obj: T, ok: bool): (r: (bool, StoreState<T>))
    ensures r.0 <==> ok && key !in s.objects
    ensures r.1.objects == (if r.0 then s.objects[key := obj] else s.objects)
    ensures r.1.calls == s.calls + [CreateCall(key, r.0)]
  {
    var success := ok && key !in s.objects;
    (success, StoreState(if success then s.objects[key := obj] else s.objects, s.calls + [CreateCall(key, success)]))
  }

  function UpdateSpec<T>(s: StoreState<T>, key: ObjectKey, obj: T, ok: bool): (r: (bool, StoreState<T>))
    ensures r.0 <==> ok && key in s.objects
    ensures r.1.objects == (if r.0 then s.objects[key := obj] else s.objects)
    ensures r.1.calls == s.calls + [UpdateCall(key, r.0)]
  {
    var success := ok && key in s.objects;
    (success, StoreState(if success then s.objects[key := obj] else s.objects, s.calls + [UpdateCall(key, success)]))
  }

  class Store<T> {
    var objects: map<ObjectKey, T>
    var calls: seq<Call>

    function State(): StoreState<T>
      reads this
    {
      StoreState(objects, calls)
    }

    constructor (initial: map<ObjectKey, T>)
      ensures objects == initial && calls == []
    {
      objects := initial;
      calls := [];
    }

    method Create(key: ObjectKey, obj: T, ok: bool) returns (success: bool)
      modifies this
      ensures (success, State()) == CreateSpec(old(State()), key, obj, ok)
    {
      success := ok && key !in objects;
      if success {
        objects := objects[key := obj];
      }
      calls := calls + [CreateCall(key, success)];
    }

    method Update(key: ObjectKey, obj: T, ok: bool) returns (success: bool)
      modifies this
      ensures (success, State()) == UpdateSpec(old(State()), key, obj, ok)
    {
      success := ok && key in objects;
      if success {
        objects := objects[key := obj];
      }
      calls := calls + [UpdateCall(key, success)];
    }
  }

  /** A pull request the hosting service opened, with the number it assigned. */
  datatype OpenedPullRequest = OpenedPullRequest(repository: string, number: int, input: PullRequestInput)

  datatype ReviewRequest = ReviewRequest(repository: string, number: int, reviewers: seq<string>)

  datatype HostingState = HostingState(pulls: seq<OpenedPullRequest>, reviewRequests: seq<ReviewRequest>)

  function OpenSpec(h: HostingState, repository: string, input: PullRequestInput, numberGiven: Option<int>): (r: (Option<int>, HostingState))
    ensures r.0 == numberGiven
    ensures r.1.reviewRequests == h.reviewRequests
    ensures r.1.pulls == h.pulls + (if numberGiven.Some? then [OpenedPullRequest(repository, numberGiven.value, input)] else [])
  {
    if numberGiven.Some? then (numberGiven, HostingState(h.pulls + [OpenedPullRequest(repository, numberGiven.value, input)], h.reviewRequests))
    else (None, h)
  }

  function RequestReviewSpec(h: HostingState, repository: string, number: int, reviewers: seq<string>, ok: bool): (r: (bool, HostingState))
    ensures r.0 == ok
    ensures r.1.pulls == h.pulls
    ensures r.1.reviewRequests == h.reviewRequests + (if ok then [ReviewRequest(repository, number, reviewers)] else [])
  {
    if ok then (true, HostingState(h.pulls, h.reviewRequests + [ReviewRequest(repository, number, reviewers)]))
    else (false, h)
  }

  class Hosting {
    var pulls: seq<OpenedPullRequest>
    var reviewRequests: seq<ReviewRequest>

    function State(): HostingState
      reads this
    {
      HostingState(pulls, reviewRequests)
    }

    constructor ()
      ensures pulls == [] && reviewRequests == []
    {
      pulls := [];
      reviewRequests := [];
    }

    /** PullRequests.Create: the assigned number, or None when the call failed. */
    method OpenPullRequest(repository: string, input: PullRequestInput, numberGiven: Option<int>) returns (number: Option<int>)
      modifies this
      ensures (number, State()) == OpenSpec(old(State()), repository, input, numberGiven)
    {
      number := numberGiven;
      if numberGiven.Some? {
        pulls := pulls + [OpenedPullRequest(repository, numberGiven.value, input)];
      }
    }

    /** PullRequests.RequestReview */
    method RequestReview(repository: string, number: int, reviewers: seq<string>, ok: bool) returns (success: bool)
      modifies this
      ensures (success, State()) == RequestReviewSpec(old(State()), repository, number, reviewers, ok)
    {
      success := ok;
      if ok {
        reviewRequests := reviewRequests + [ReviewRequest(repository, number, reviewers)];
      }
    }
  }
}
