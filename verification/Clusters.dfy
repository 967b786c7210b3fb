/** The cluster as the reconcilers meet it: every API call may be preceded by any number of steps of everybody else,
    and may fail in any way.  The ghost history is an execution of the protocol. */
module Clusters {
  import opened Resources
  import opened Protocol
  import opened Frames

  // ---------- who took which steps ----------

  /** The steps of the request reconciler. */
  function RequestSteps(steps: seq<Step>): seq<Step> {
    if steps == [] then []
    else
      var last := steps[|steps| - 1];
      RequestSteps(steps[..|steps| - 1]) + (if OfRequestWorker(last) then [last] else [])
  }

  /** The steps of the review reconciler. */
  function ReviewSteps(steps: seq<Step>): seq<Step> {
    if steps == [] then []
    else
      var last := steps[|steps| - 1];
      ReviewSteps(steps[..|steps| - 1]) + (if OfReviewWorker(last) then [last] else [])
  }

  /** `more` goes on from `own` by calls only: no restart, no crash. */
  ghost predicate OnlyCalls(own: seq<Step>, more: seq<Step>) {
    own <= more && forall i :: |own| <= i < |more| ==> more[i].CallRequest? || more[i].CallReview? || more[i].ReadReview?
  }

  /** Exactly one reconcile of `k`, from its start, by calls. */
  ghost predicate OneReconcile(own: seq<Step>, start: Step, more: seq<Step>) {
    OnlyCalls(own + [start], more)
  }

  lemma AppendStep(steps: seq<Step>, s: Step)
    ensures RequestSteps(steps + [s]) == RequestSteps(steps) + (if OfRequestWorker(s) then [s] else [])
    ensures ReviewSteps(steps + [s]) == ReviewSteps(steps) + (if OfReviewWorker(s) then [s] else [])
  {
    assert (steps + [s])[..|steps|] == steps;
  }

  lemma AppendWorld(ws: seq<World>, steps: seq<Step>, s: Step)
    requires Execution(ws, steps) && Enabled(ws[|steps|], s)
    ensures Execution(ws + [Apply(ws[|steps|], s)], steps + [s])
  {
    hide Apply, Enabled;
  }

  /** A request as a reconciler holds it in memory: what it last read, and the status it is about to write. */
  class RequestObject {
    const key: Key
    var spec: RequestSpec
    var created: int
    var version: nat
    var status: RequestStatus
    ghost var base: JobRequest

    constructor (k: Key)
      ensures key == k
    {
      key := k;
    }

    /** A copy, as Go makes of a struct passed by value. */
    constructor Copy(other: RequestObject)
      ensures key == other.key && spec == other.spec && created == other.created
      ensures version == other.version && status == other.status && base == other.base
    {
      key := other.key;
      spec, created, version, status := other.spec, other.created, other.version, other.status;
      base := other.base;
    }

    method Fill(r: JobRequest)
      modifies this
      ensures Holds(r)
    {
      spec, created, version, status := r.spec, r.created, r.version, r.status;
      base := r;
    }

    /** Unmodified since it was read. */
    ghost predicate Holds(r: JobRequest)
      reads this
    {
      base == r && spec == r.spec && created == r.created && version == r.version && status == r.status
    }
  }

  class Cluster {
    var world: World
    /** What the request reconciler has told the event recorder. */
    var recorded: map<Key, seq<RequestState>>
    ghost const origin: World
    ghost var worlds: seq<World>
    ghost var steps: seq<Step>

    ghost predicate Valid()
      reads this
    {
      Execution(worlds, steps) && worlds[0] == origin && world == worlds[|steps|]
    }

    /** The recorder is up to date. */
    ghost predicate Synced()
      reads this
    {
      recorded == world.log.events
    }

    constructor (ttl: int, now: int)
      ensures Valid() && Synced() && world == InitialWorld(ttl, now) && steps == []
    {
      var w := InitialWorld(ttl, now);
      world, recorded := w, map[];
      origin, worlds, steps := w, [w], [];
    }

    method Take(s: Step)
      requires Valid() && Enabled(world, s)
      modifies this`world, this`worlds, this`steps
      ensures Valid() && world == Apply(old(world), s) && steps == old(steps) + [s]
    {
      hide Apply, Enabled;
      AppendWorld(worlds, steps, s);
      world := Apply(world, s);
      worlds := worlds + [world];
      steps := steps + [s];
    }

    /** Everybody but the request reconciler does whatever they like. */
    method OthersThanRequest()
      requires Valid()
      modifies this`world, this`worlds, this`steps
      ensures Valid() && world.request == old(world.request) && world.log.events == old(world.log.events)
      ensures old(steps) <= steps && RequestSteps(steps) == RequestSteps(old(steps))
    {
      var n: nat := *;
      while n > 0
        invariant Valid() && world.request == old(world.request) && world.log.events == old(world.log.events)
        invariant old(steps) <= steps && RequestSteps(steps) == RequestSteps(old(steps))
      {
        var s: Step := *;
        if Enabled(world, s) && !OfRequestWorker(s) {
          OthersKeep(world, s);
          AppendStep(steps, s);
          Take(s);
        }
        n := n - 1;
      }
    }

    /** Everybody but the review reconciler does whatever they like. */
    method OthersThanReview()
      requires Valid()
      modifies this`world, this`worlds, this`steps
      ensures Valid() && world.review == old(world.review)
      ensures old(world.log.copies) <= world.log.copies
      ensures old(steps) <= steps && ReviewSteps(steps) == ReviewSteps(old(steps))
    {
      var n: nat := *;
      while n > 0
        invariant Valid() && world.review == old(world.review)
        invariant old(world.log.copies) <= world.log.copies
        invariant old(steps) <= steps && ReviewSteps(steps) == ReviewSteps(old(steps))
      {
        var s: Step := *;
        if Enabled(world, s) && !OfReviewWorker(s) {
          OthersKeepReview(world, s);
          AppendStep(steps, s);
          Take(s);
        }
        n := n - 1;
      }
    }
  }

  lemma OthersKeep(w: World, s: Step)
    requires Enabled(w, s) && !OfRequestWorker(s)
    ensures Apply(w, s).request == w.request && Apply(w, s).log.events == w.log.events
  {
  }

  lemma OthersKeepReview(w: World, s: Step)
    requires Enabled(w, s) && !OfReviewWorker(s)
    ensures Apply(w, s).review == w.review && w.log.copies <= Apply(w, s).log.copies
  {
  }

  // ---------- the clock's limit ----------

  lemma {:induction false} TtlOver(ws: seq<World>, steps: seq<Step>, i: nat)
    requires Execution(ws, steps) && i < |ws|
    ensures ws[i].store.ttl == ws[0].store.ttl
  {
    hide Apply, Enabled;
    if i > 0 {
      TtlOver(ws, steps, i - 1);
      TtlStep(ws[i - 1], steps[i - 1]);
    }
  }

  lemma TtlStep(w: World, s: Step)
    requires Enabled(w, s)
    ensures Apply(w, s).store.ttl == w.store.ttl
  {
    hide RequestCall, ReviewCall;
    if s.CallRequest? {
      RequestCallFootprint(w, s.o);
    } else if s.CallReview? {
      ReviewCallFootprint(w, s.o);
    }
  }

  lemma TtlConstant(c: Cluster)
    requires c.Valid()
    ensures c.world.store.ttl == c.origin.store.ttl
  {
    TtlOver(c.worlds, c.steps, |c.steps|);
  }
}
