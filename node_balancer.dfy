/**
 * Node balancer, part 4: the rebalancing pass and the reconcile loop.
 *
 * The pass is first stated as a function over `Progress` (the working usage
 * records of the underutilized nodes, the events recorded, and the pods the
 * Eviction API was called for). The `Reconciler` class then performs the pass
 * in place: the underutilized nodes are an array whose entries are updated
 * as pods are placed, as the Go code updates them through the address of an element of
 * the slice.
 */
module NodeBalancer {
  import opened Kube
  import opened NodeUsage
  import opened Eviction
  import opened Placement

  const RequeueInterval: int := 30 * Second

  datatype Progress = Progress(under: seq<Usage>, events: seq<Event>, calls: seq<Pod>)

  /** The effect of evictPod on the cluster: an API call once validation passes, an event once the API accepts. */
  function AfterEvict(c: Cluster, p: Progress, pod: Pod, target: string): Progress
  {
    p.(calls := p.calls + (if EvictionRequested(c, pod) then [pod] else []),
       events := if EvictionAccepted(c, pod) then RecordEvent(p.events, pod, target) else p.events)
  }

  /**
   * One iteration of the inner loop of performRebalancing: pick a target,
   * evict, and on a nil error bump the target. The flag asks to break.
   */
  function PlaceStep(c: Cluster, p: Progress, pod: Pod): (Progress, bool)
  {
    match BestTarget(p.under, CpuOf(pod.containers) as real, MemoryOf(pod.containers) as real)
    case None => (p, false)
    case Some(t) =>
      var q := AfterEvict(c, p, pod, p.under[t].nodeName);
      if EvictError(c, pod).Some? then (q, false)
      else
        var u := Bump(p.under, t, pod);
        (q.(under := u), !u[t].isUnderutilized)
  }

  /** The inner loop over one node's pods, stopping at the first break. */
  function PlacePods(c: Cluster, p: Progress, pods: seq<Pod>): Progress
    decreases |pods|
  {
    if |pods| == 0 then p
    else
      var (q, stop) := PlaceStep(c, p, pods[0]);
      if stop then q else PlacePods(c, q, pods[1..])
  }

  /** The pods performRebalancing tries on an overloaded node, in the order it tries them. */
  function EvictionOrder(o: Usage): seq<Pod>
  {
    ExchangeSorted(Filter(o.pods, IsPodEvictable))
  }

  /** performRebalancing: every overloaded node in turn. */
  function Rebalance(c: Cluster, p: Progress, overloaded: seq<Usage>): Progress
    decreases |overloaded|
  {
    if |overloaded| == 0 then p else Rebalance(c, PlacePods(c, p, EvictionOrder(overloaded[0])), overloaded[1..])
  }

  function AllPods(overloaded: seq<Usage>): seq<Pod>
    decreases |overloaded|
  {
    if |overloaded| == 0 then [] else overloaded[0].pods + AllPods(overloaded[1..])
  }

  // ---------------------------------------------------------------------
  // What a pass preserves

  /** b describes the same nodes as a: only the CPU and memory figures may differ. */
  predicate SameNodes(a: seq<Usage>, b: seq<Usage>)
  {
    |a| == |b| &&
    forall k :: 0 <= k < |a| ==>
      b[k].nodeName == a[k].nodeName && b[k].pods == a[k].pods &&
      b[k].isOverloaded == a[k].isOverloaded && b[k].isUnderutilized == a[k].isUnderutilized
  }

  /** Same nodes, and no figure went down. */
  predicate Grown(a: seq<Usage>, b: seq<Usage>)
  {
    SameNodes(a, b) &&
    forall k :: 0 <= k < |a| ==> b[k].cpuRequests >= a[k].cpuRequests && b[k].memoryRequests >= a[k].memoryRequests
  }

  /** b is a followed by API calls, each for a pod of `from` that passed validation. */
  predicate CallsExtend(c: Cluster, a: seq<Pod>, b: seq<Pod>, from: seq<Pod>)
  {
    |a| <= |b| && b[..|a|] == a &&
    forall k :: |a| <= k < |b| ==> EvictionRequested(c, b[k]) && b[k] in from
  }

  lemma SameNodesTrans(a: seq<Usage>, b: seq<Usage>, d: seq<Usage>)
    requires SameNodes(a, b) && SameNodes(b, d)
    ensures SameNodes(a, d)
  {
  }

  lemma GrownTrans(a: seq<Usage>, b: seq<Usage>, d: seq<Usage>)
    requires Grown(a, b) && Grown(b, d)
    ensures Grown(a, d)
  {
  }

  lemma CallsExtendTrans(c: Cluster, a: seq<Pod>, b: seq<Pod>, d: seq<Pod>, from1: seq<Pod>, from2: seq<Pod>, from: seq<Pod>)
    requires CallsExtend(c, a, b, from1) && CallsExtend(c, b, d, from2)
    requires forall x :: x in from1 ==> x in from
    requires forall x :: x in from2 ==> x in from
    ensures CallsExtend(c, a, d, from)
  {
    assert d[..|a|] == d[..|b|][..|a|];
    forall k | |a| <= k < |d| ensures EvictionRequested(c, d[k]) && d[k] in from {
      if k < |b| {
        assert d[k] == d[..|b|][k];
      }
    }
  }

  /** One step: same nodes, at most one validated call for the pod, unique event keys, and figures only rise for non-negative requests. */
  lemma PlaceStepFacts(c: Cluster, p: Progress, pod: Pod)
    requires UniqueKeys(p.events)
    ensures var q := PlaceStep(c, p, pod).0;
            SameNodes(p.under, q.under) && CallsExtend(c, p.calls, q.calls, [pod]) && UniqueKeys(q.events)
    ensures CpuOf(pod.containers) >= 0 && MemoryOf(pod.containers) >= 0 ==>
              Grown(p.under, PlaceStep(c, p, pod).0.under)
  {
    var b := BestTarget(p.under, CpuOf(pod.containers) as real, MemoryOf(pod.containers) as real);
    if b.Some? {
      RecordEventKeepsKeysUnique(p.events, pod, p.under[b.value].nodeName);
      var q := AfterEvict(c, p, pod, p.under[b.value].nodeName);
      assert CallsExtend(c, p.calls, q.calls, [pod]);
    }
  }

  /**
   * The inner loop keeps the nodes, only ever raises their figures when
   * requests are non-negative, calls the API only for pods of its list that
   * passed validation, and never records two events under one key.
   */
  lemma {:induction false} PlacePodsFacts(c: Cluster, p: Progress, pods: seq<Pod>)
    requires UniqueKeys(p.events)
    ensures var r := PlacePods(c, p, pods);
            SameNodes(p.under, r.under) && CallsExtend(c, p.calls, r.calls, pods) && UniqueKeys(r.events)
    decreases |pods|
  {
    if |pods| == 0 {
      assert p.calls[..|p.calls|] == p.calls;
    } else {
      var step := PlaceStep(c, p, pods[0]);
      var q := step.0;
      PlaceStepFacts(c, p, pods[0]);
      assert pods[0] in pods;
      if step.1 {
        assert PlacePods(c, p, pods) == q;
        CallsExtendTrans(c, p.calls, q.calls, q.calls, [pods[0]], [], pods);
      } else {
        assert PlacePods(c, p, pods) == PlacePods(c, q, pods[1..]);
        PlacePodsFacts(c, q, pods[1..]);
        var r := PlacePods(c, q, pods[1..]);
        assert forall x :: x in pods[1..] ==> x in pods;
        CallsExtendTrans(c, p.calls, q.calls, r.calls, [pods[0]], pods[1..], pods);
        SameNodesTrans(p.under, q.under, r.under);
      }
    }
  }

  /** With non-negative requests the inner loop only ever raises the figures of the underutilized nodes. */
  lemma {:induction false} PlacePodsGrows(c: Cluster, p: Progress, pods: seq<Pod>)
    requires UniqueKeys(p.events)
    requires NonNegativeRequests(pods)
    ensures Grown(p.under, PlacePods(c, p, pods).under)
    decreases |pods|
  {
    if |pods| > 0 {
      var step := PlaceStep(c, p, pods[0]);
      var q := step.0;
      PlaceStepFacts(c, p, pods[0]);
      ContainerSumsNonNegative(pods[0].containers);
      if !step.1 {
        assert PlacePods(c, p, pods) == PlacePods(c, q, pods[1..]);
        assert NonNegativeRequests(pods[1..]);
        PlacePodsGrows(c, q, pods[1..]);
        GrownTrans(p.under, q.under, PlacePods(c, q, pods[1..]).under);
      }
    }
  }

  /** The pods tried on a node are among its pods. */
  lemma EvictionOrderFromNode(o: Usage)
    ensures forall x :: x in EvictionOrder(o) ==> x in o.pods && IsPodEvictable(x)
  {
    var f := Filter(o.pods, IsPodEvictable);
    ExchangeSortedSorts(f);
    FilterMembers(o.pods, IsPodEvictable);
    forall x | x in EvictionOrder(o) ensures x in o.pods && IsPodEvictable(x) {
      assert x in multiset(EvictionOrder(o));
      assert x in multiset(f);
    }
  }

  /** The pass keeps the nodes, calls the API only for validated pods of overloaded nodes, and keeps event keys unique. */
  lemma {:induction false} RebalanceFacts(c: Cluster, p: Progress, overloaded: seq<Usage>)
    requires UniqueKeys(p.events)
    ensures var r := Rebalance(c, p, overloaded);
            SameNodes(p.under, r.under) && CallsExtend(c, p.calls, r.calls, AllPods(overloaded)) && UniqueKeys(r.events)
    decreases |overloaded|
  {
    if |overloaded| == 0 {
      assert p.calls[..|p.calls|] == p.calls;
    } else {
      var o := overloaded[0];
      var q := PlacePods(c, p, EvictionOrder(o));
      PlacePodsFacts(c, p, EvictionOrder(o));
      EvictionOrderFromNode(o);
      RebalanceFacts(c, q, overloaded[1..]);
      var r := Rebalance(c, q, overloaded[1..]);
      assert Rebalance(c, p, overloaded) == r;
      assert AllPods(overloaded) == o.pods + AllPods(overloaded[1..]);
      CallsExtendTrans(c, p.calls, q.calls, r.calls, EvictionOrder(o), AllPods(overloaded[1..]), AllPods(overloaded));
      SameNodesTrans(p.under, q.under, r.under);
    }
  }

  // ---------------------------------------------------------------------
  // The break on `!IsUnderutilized` and the skipped evictions

  predicate AllUnderutilized(s: seq<Usage>)
  {
    forall u :: u in s ==> u.isUnderutilized
  }

  /**
   * The flag is never recomputed after a placement, and every target comes
   * from the underutilized list, so the break never fires: each pod of the
   * list is tried, however full the targets become.
   */
  lemma {:induction false} PlacePodsTriesEveryPod(c: Cluster, p: Progress, pods: seq<Pod>, x: Pod)
    requires AllUnderutilized(p.under)
    ensures PlacePods(c, p, pods + [x]) == PlaceStep(c, PlacePods(c, p, pods), x).0
    decreases |pods|
  {
    NeverStops(c, p, x);
    if |pods| > 0 {
      var q := PlaceStep(c, p, pods[0]).0;
      NeverStops(c, p, pods[0]);
      assert (pods + [x])[1..] == pods[1..] + [x];
      PlacePodsTriesEveryPod(c, q, pods[1..], x);
    }
  }

  lemma NeverStops(c: Cluster, p: Progress, pod: Pod)
    requires AllUnderutilized(p.under)
    ensures !PlaceStep(c, p, pod).1 && AllUnderutilized(PlaceStep(c, p, pod).0.under)
  {
    var b := BestTarget(p.under, CpuOf(pod.containers) as real, MemoryOf(pod.containers) as real);
    if b.Some? {
      assert p.under[b.value] in p.under;
      var r := PlaceStep(c, p, pod).0.under;
      forall u | u in r ensures u.isUnderutilized {
        var k :| 0 <= k < |r| && r[k] == u;
        assert p.under[k] in p.under;
      }
    }
  }

  /**
   * A pod that validation skips is not evicted, yet evictPod returns nil, so
   * the chosen target is bumped as if the pod had moved there.
   */
  lemma SkippedPodStillBumpsTarget(c: Cluster, p: Progress, pod: Pod)
    requires |p.under| > 0
    requires ValidationFailure(c, pod).Some?
    ensures var t := BestTarget(p.under, CpuOf(pod.containers) as real, MemoryOf(pod.containers) as real).value;
            PlaceStep(c, p, pod).0 == p.(under := Bump(p.under, t, pod))
  {
  }

  // ---------------------------------------------------------------------
  // Reconcile as a value

  datatype ReconcileResult = Requeue(after: int) | ReconcileError

  /** The balancer-labelled nodes' usage records, given the pod list. */
  function Usages(nodes: seq<Node>, pods: seq<Pod>): (r: seq<Usage>)
    ensures |r| == |nodes|
  {
    seq(|nodes|, i requires 0 <= i < |nodes| => UsageOf(nodes[i], pods))
  }

  /** The result Reconcile returns: an error exactly when a list call it reaches fails, otherwise a requeue after 30 seconds. */
  function ReconcileResultOf(nodeList: Option<seq<Node>>, podList: Option<seq<Pod>>): (r: ReconcileResult)
    ensures r == ReconcileError <==> nodeList.None? || (podList.None? && exists n :: n in nodeList.value && ShouldBalanceNode(n))
    ensures r != ReconcileError ==> r == Requeue(RequeueInterval)
  {
    if nodeList.None? then ReconcileError
    else
      var targets := Filter(nodeList.value, ShouldBalanceNode);
      FilterMembers(nodeList.value, ShouldBalanceNode);
      if |targets| == 0 then Requeue(RequeueInterval)
      else if podList.None? then (assert targets[0] in targets; ReconcileError)
      else Requeue(RequeueInterval)
  }

  /** The events and API calls after one Reconcile. */
  function ReconcileEffect(c: Cluster, events: seq<Event>, calls: seq<Pod>,
                           nodeList: Option<seq<Node>>, podList: Option<seq<Pod>>): Progress
  {
    var p0 := Progress([], events, calls);
    if nodeList.None? || podList.None? then p0
    else RebalanceEffect(c, p0, Usages(Filter(nodeList.value, ShouldBalanceNode), podList.value))
  }

  /** What follows the analysis in Reconcile: rebalancing when there are both overloaded and underutilized nodes. */
  function RebalanceEffect(c: Cluster, p0: Progress, usages: seq<Usage>): Progress
  {
    var over := Filter(usages, MarkedOverloaded);
    var under := Filter(usages, MarkedUnderutilized);
    if |over| == 0 || |under| == 0 then p0
    else Rebalance(c, p0.(under := under), over)
  }

  /**
   * One Reconcile only appends API calls, each for an evictable pod whose
   * PDBs allow it and that runs on a balancer-labelled node found overloaded,
   * and it never records two events under one key.
   */
  lemma ReconcileEvictsOnlyFromOverloadedNodes(c: Cluster, events: seq<Event>, calls: seq<Pod>,
                                               nodeList: Option<seq<Node>>, podList: Option<seq<Pod>>)
    requires UniqueKeys(events)
    ensures var r := ReconcileEffect(c, events, calls, nodeList, podList);
            UniqueKeys(r.events) && |calls| <= |r.calls| && r.calls[..|calls|] == calls &&
            forall k :: |calls| <= k < |r.calls| ==>
              EvictionRequested(c, r.calls[k]) && IsPodEvictable(r.calls[k]) &&
              exists n :: n in nodeList.value && ShouldBalanceNode(n) && UsageOf(n, podList.value).isOverloaded &&
                          r.calls[k].nodeName == n.name
  {
    if nodeList.Some? && podList.Some? {
      var targets := Filter(nodeList.value, ShouldBalanceNode);
      var usages := Usages(targets, podList.value);
      var over := Filter(usages, MarkedOverloaded);
      var under := Filter(usages, MarkedUnderutilized);
      if |over| > 0 && |under| > 0 {
        var p0 := Progress(under, events, calls);
        RebalanceFacts(c, p0, over);
        var r := Rebalance(c, p0, over);
        forall k | |calls| <= k < |r.calls|
          ensures exists n :: n in nodeList.value && ShouldBalanceNode(n) && UsageOf(n, podList.value).isOverloaded &&
                              r.calls[k].nodeName == n.name
        {
          PodOfOverloadedNode(targets, podList.value, over, r.calls[k]);
          FilterMembers(nodeList.value, ShouldBalanceNode);
        }
      }
    }
  }

  /** A pod listed on an overloaded usage record runs on that record's node. */
  lemma PodOfOverloadedNode(targets: seq<Node>, pods: seq<Pod>, over: seq<Usage>, x: Pod)
    requires over == Filter(Usages(targets, pods), MarkedOverloaded)
    requires x in AllPods(over)
    ensures exists n :: n in targets && UsageOf(n, pods).isOverloaded && x.nodeName == n.name
  {
    var usages := Usages(targets, pods);
    var o := InAllPods(over, x);
    FilterMembers(usages, MarkedOverloaded);
    assert o in usages;
    var i :| 0 <= i < |usages| && usages[i] == o;
    var n := targets[i];
    assert o == UsageOf(n, pods);
    FilterMembers(pods, OnNodeAndEvictable(n.name));
    assert x in PodsOnNode(pods, n.name);
    assert n in targets;
  }

  /** The record whose pods contain x. */
  lemma {:induction false} InAllPods(over: seq<Usage>, x: Pod) returns (o: Usage)
    requires x in AllPods(over)
    ensures o in over && x in o.pods
    decreases |over|
  {
    if x in over[0].pods {
      o := over[0];
    } else {
      o := InAllPods(over[1..], x);
    }
  }

  // ---------------------------------------------------------------------
  // The reconciler

  class Reconciler {
    /** The cluster's PDBs and Eviction API answers. */
    const cluster: Cluster
    /** Events created by the balancer. */
    var events: seq<Event>
    /** Pods for which the Eviction API was called, in order. */
    var evictionCalls: seq<Pod>

    constructor (c: Cluster)
      ensures cluster == c && events == [] && evictionCalls == []
    {
      cluster := c;
      events := [];
      evictionCalls := [];
    }

    /** createEvictionEvent. */
    method CreateEvictionEvent(pod: Pod, targetNode: string)
      modifies this
      ensures events == RecordEvent(old(events), pod, targetNode)
      ensures evictionCalls == old(evictionCalls)
    {
      if HasEvent(events, pod.namespace, EventName(pod)) {
        return;
      }
      events := events + [Event(pod.namespace, EventName(pod), pod.name, targetNode, NodeRebalancingReason)];
    }

    /** evictPod. */
    method EvictPod(pod: Pod, targetNode: string) returns (err: Option<EvictionFailure>)
      modifies this
      ensures err == EvictError(cluster, pod)
      ensures Progress([], events, evictionCalls) ==
              AfterEvict(cluster, Progress([], old(events), old(evictionCalls)), pod, targetNode)
    {
      var invalid := ValidateEviction(cluster, pod);
      if invalid.Some? {
        return None;
      }
      evictionCalls := evictionCalls + [pod];
      if KeyOf(pod) in cluster.evictionErrors {
        return HandleEvictionError(cluster.evictionErrors[KeyOf(pod)]);
      }
      CreateEvictionEvent(pod, targetNode);
      return None;
    }

    /** One iteration of the inner loop: target, evict, bump; `stop` asks the loop to break. */
    method PlaceOne(pod: Pod, under: array<Usage>) returns (stop: bool)
      modifies this, under
      ensures (Progress(under[..], events, evictionCalls), stop) ==
              PlaceStep(cluster, Progress(old(under[..]), old(events), old(evictionCalls)), pod)
    {
      var target := FindBestTargetNode(under, pod);
      if target.None? {
        return false;
      }
      var t := target.value;
      var err := EvictPod(pod, under[t].nodeName);
      if err.Some? {
        return false;
      }
      var podCpu := GetPodCpuRequest(pod);
      var podMemory := GetPodMemoryRequest(pod);
      under[t] := under[t].(cpuRequests := under[t].cpuRequests + podCpu,
                            memoryRequests := under[t].memoryRequests + podMemory);
      return !under[t].isUnderutilized;
    }

    /** The inner loop of performRebalancing over one node's sorted pods. */
    method PlaceNodePods(pods: array<Pod>, under: array<Usage>)
      modifies this, under
      ensures Progress(under[..], events, evictionCalls) ==
              PlacePods(cluster, Progress(old(under[..]), old(events), old(evictionCalls)), pods[..])
    {
      ghost var placed := PlacePods(cluster, Progress(under[..], events, evictionCalls), pods[..]);
      var k := 0;
      while k < pods.Length
        invariant 0 <= k <= pods.Length
        invariant PlacePods(cluster, Progress(under[..], events, evictionCalls), pods[k..]) == placed
      {
        assert pods[k..][1..] == pods[k + 1..];
        var stop := PlaceOne(pods[k], under);
        if stop {
          break;
        }
        k := k + 1;
      }
    }

    /** One iteration of performRebalancing's outer loop: the evictable pods of `o`, heaviest first, placed in turn. */
    method RebalanceNode(o: Usage, under: array<Usage>)
      modifies this, under
      ensures Progress(under[..], events, evictionCalls) ==
              PlacePods(cluster, Progress(old(under[..]), old(events), old(evictionCalls)), EvictionOrder(o))
    {
      var evictable := Select(o.pods, IsPodEvictable);
      if |evictable| == 0 {
        return;
      }
      var pods := new Pod[|evictable|](i requires 0 <= i < |evictable| => evictable[i]);
      assert pods[..] == evictable;
      SortPodsByResourceUsage(pods);
      PlaceNodePods(pods, under);
    }

    /** performRebalancing; `under` holds the underutilized nodes and is updated in place. */
    method PerformRebalancing(overloaded: seq<Usage>, under: array<Usage>)
      modifies this, under
      ensures Progress(under[..], events, evictionCalls) ==
              Rebalance(cluster, Progress(old(under[..]), old(events), old(evictionCalls)), overloaded)
    {
      ghost var goal := Rebalance(cluster, Progress(under[..], events, evictionCalls), overloaded);
      var n := 0;
      while n < |overloaded|
        invariant 0 <= n <= |overloaded|
        invariant Rebalance(cluster, Progress(under[..], events, evictionCalls), overloaded[n..]) == goal
      {
        assert overloaded[n..][1..] == overloaded[n + 1..];
        RebalanceNode(overloaded[n], under);
        n := n + 1;
      }
    }

    /** Reconcile. The two list calls are given as their answers; None is a failed call. */
    method Reconcile(nodeList: Option<seq<Node>>, podList: Option<seq<Pod>>) returns (res: ReconcileResult)
      modifies this
      ensures res == ReconcileResultOf(nodeList, podList)
      ensures Progress([], events, evictionCalls) ==
              ReconcileEffect(cluster, old(events), old(evictionCalls), nodeList, podList).(under := [])
    {
      if nodeList.None? {
        return ReconcileError;
      }
      var targets := Select(nodeList.value, ShouldBalanceNode);
      if |targets| == 0 {
        return Requeue(RequeueInterval);
      }
      var usages := AnalyzeNodeResourceUsage(targets, podList);
      if usages.None? {
        return ReconcileError;
      }
      assert usages.value == Usages(targets, podList.value);
      RebalanceUsages(usages.value);
      return Requeue(RequeueInterval);
    }

    /** The rest of Reconcile once the usage records are known. */
    method RebalanceUsages(usages: seq<Usage>)
      modifies this
      ensures Progress([], events, evictionCalls) ==
              RebalanceEffect(cluster, Progress([], old(events), old(evictionCalls)), usages).(under := [])
    {
      var over := GetOverloadedNodes(usages);
      var under := GetUnderutilizedNodes(usages);
      if |over| == 0 || |under| == 0 {
        return;
      }
      var nodes := new Usage[|under|](i requires 0 <= i < |under| => under[i]);
      assert nodes[..] == under;
      PerformRebalancing(over, nodes);
    }
  }
}
