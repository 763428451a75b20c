/**
 * Node balancer, part 1: the data model, the evictability predicate, the
 * accounting of requested CPU and memory per node, and the classification
 * of nodes as overloaded or underutilized.
 *
 * Quantities are plain integers: CPU in millicores (Quantity.MilliValue),
 * memory in bytes (Quantity.Value). A container without a request for a
 * resource contributes a zero quantity, as reading a missing key of the Go
 * requests map does. Percentages are reals.
 */
module NodeUsage {
  import opened Kube

  const BalancerLabel := "node-balancer/enabled"
  const EvictableAnnotation := "node-balancer/evictable"

  const CpuThresholdHigh: real := 60.0
  const CpuThresholdLow: real := 40.0
  const MemoryThresholdHigh: real := 60.0
  const MemoryThresholdLow: real := 40.0

  /** The requests of one container. */
  datatype Container = Container(cpuMilli: int, memoryBytes: int)

  datatype Pod = Pod(
    name: string,
    namespace: string,
    nodeName: string,
    labels: StringMap,
    annotations: StringMap,
    terminating: bool,            // DeletionTimestamp is set
    requiredNodeAffinity: bool,   // a required node-affinity term is present
    containers: seq<Container>)

  datatype Node = Node(
    name: string,
    labels: StringMap,
    cpuCapacityMilli: int,
    cpuAllocatableMilli: int,
    memoryCapacity: int,
    memoryAllocatable: int)

  /** NodeResourceUsage: one node's requested share of its allocatable capacity. */
  datatype Usage = Usage(
    nodeName: string,
    cpuRequests: real,
    memoryRequests: real,
    isOverloaded: bool,
    isUnderutilized: bool,
    pods: seq<Pod>)

  /** shouldBalanceNode: the node carries the balancer label, whatever its value. */
  predicate ShouldBalanceNode(n: Node)
  {
    BalancerLabel in n.labels
  }

  /**
   * isPodEvictable. A terminating pod never is; otherwise an evictable
   * annotation decides on its own (text ParseBool rejects counts as false);
   * without it, pods in kube-system and pods with a required node affinity
   * stay put.
   */
  function IsPodEvictable(p: Pod): (r: bool)
    ensures p.terminating ==> !r
    ensures !p.terminating && EvictableAnnotation in p.annotations ==>
              (r <==> p.annotations[EvictableAnnotation] in TrueSpellings)
    ensures !p.terminating && EvictableAnnotation !in p.annotations ==>
              (r <==> p.namespace != "kube-system" && !p.requiredNodeAffinity)
  {
    if p.terminating then false
    else if EvictableAnnotation in p.annotations then
      var parsed := ParseBool(p.annotations[EvictableAnnotation]);
      parsed.Some? && parsed.value
    else if p.namespace == "kube-system" then false
    else if p.requiredNodeAffinity then false
    else true
  }

  // ---------------------------------------------------------------------
  // Request sums

  function CpuOf(cs: seq<Container>): int
  {
    if |cs| == 0 then 0 else CpuOf(cs[..|cs| - 1]) + cs[|cs| - 1].cpuMilli
  }

  function MemoryOf(cs: seq<Container>): int
  {
    if |cs| == 0 then 0 else MemoryOf(cs[..|cs| - 1]) + cs[|cs| - 1].memoryBytes
  }

  /** Summed CPU requests of every container of every pod, in millicores. */
  function TotalCpu(pods: seq<Pod>): int
  {
    if |pods| == 0 then 0 else TotalCpu(pods[..|pods| - 1]) + CpuOf(pods[|pods| - 1].containers)
  }

  /** Summed memory requests of every container of every pod, in bytes. */
  function TotalMemory(pods: seq<Pod>): int
  {
    if |pods| == 0 then 0 else TotalMemory(pods[..|pods| - 1]) + MemoryOf(pods[|pods| - 1].containers)
  }

  predicate NonNegativeRequests(pods: seq<Pod>)
  {
    forall p, c :: p in pods && c in p.containers ==> c.cpuMilli >= 0 && c.memoryBytes >= 0
  }

  lemma {:induction false} TotalsNonNegative(pods: seq<Pod>)
    requires NonNegativeRequests(pods)
    ensures TotalCpu(pods) >= 0 && TotalMemory(pods) >= 0
  {
    if |pods| > 0 {
      var init := pods[..|pods| - 1];
      assert forall p :: p in init ==> p in pods;
      TotalsNonNegative(init);
      ContainerSumsNonNegative(pods[|pods| - 1].containers);
    }
  }

  lemma {:induction false} ContainerSumsNonNegative(cs: seq<Container>)
    requires forall c :: c in cs ==> c.cpuMilli >= 0 && c.memoryBytes >= 0
    ensures CpuOf(cs) >= 0 && MemoryOf(cs) >= 0
  {
    if |cs| > 0 {
      var init := cs[..|cs| - 1];
      assert forall c :: c in init ==> c in cs;
      ContainerSumsNonNegative(init);
    }
  }

  /**
   * The percentage of allocatable capacity that `total` requests, capped at
   * 100; 0 when the capacity or the allocatable amount is zero.
   */
  function RequestPercent(total: int, capacity: int, allocatable: int): (r: real)
    ensures capacity == 0 || allocatable == 0 ==> r == 0.0
    ensures r <= 100.0
    ensures total >= 0 && allocatable >= 0 ==> 0.0 <= r
    ensures capacity != 0 && allocatable > 0 && total <= allocatable ==>
              r == (total as real) * 100.0 / (allocatable as real)
    ensures capacity != 0 && allocatable > 0 && total >= allocatable ==> r == 100.0
  {
    if capacity == 0 || allocatable == 0 then 0.0
    else
      var pct := (total as real) / (allocatable as real) * 100.0;
      if pct < 100.0 then pct else 100.0
  }

  /** The filter of getPodsOnNode: pods scheduled on the node that are evictable. */
  function OnNodeAndEvictable(nodeName: string): Pod -> bool
  {
    (p: Pod) => p.nodeName == nodeName && IsPodEvictable(p)
  }

  function PodsOnNode(all: seq<Pod>, nodeName: string): seq<Pod>
  {
    Filter(all, OnNodeAndEvictable(nodeName))
  }

  /** getPodsOnNode, given the listed pods: only the evictable pods of the node are kept. */
  method GetPodsOnNode(all: seq<Pod>, nodeName: string) returns (r: seq<Pod>)
    ensures r == PodsOnNode(all, nodeName)
    ensures forall p :: p in r <==> p in all && p.nodeName == nodeName && IsPodEvictable(p)
  {
    r := Select(all, OnNodeAndEvictable(nodeName));
    FilterMembers(all, OnNodeAndEvictable(nodeName));
  }

  /** calculateCPURequests, given the listed pods. */
  method CalculateCpuRequests(node: Node, all: seq<Pod>) returns (pct: real)
    ensures pct == RequestPercent(TotalCpu(PodsOnNode(all, node.name)), node.cpuCapacityMilli, node.cpuAllocatableMilli)
  {
    if node.cpuCapacityMilli == 0 {
      return 0.0;
    }
    if node.cpuAllocatableMilli == 0 {
      return 0.0;
    }
    var pods := GetPodsOnNode(all, node.name);
    var total := 0;
    var i := 0;
    while i < |pods|
      invariant 0 <= i <= |pods|
      invariant total == TotalCpu(pods[..i])
    {
      var cs := pods[i].containers;
      var j := 0;
      while j < |cs|
        invariant 0 <= j <= |cs|
        invariant total == TotalCpu(pods[..i]) + CpuOf(cs[..j])
      {
        assert cs[..j + 1][..j] == cs[..j];
        total := total + cs[j].cpuMilli;
        j := j + 1;
      }
      assert cs[..j] == cs;
      assert pods[..i + 1][..i] == pods[..i];
      i := i + 1;
    }
    assert pods[..i] == pods;
    var usagePercentage := (total as real) / (node.cpuAllocatableMilli as real) * 100.0;
    pct := if usagePercentage < 100.0 then usagePercentage else 100.0;
  }

  /** calculateMemoryRequests, given the listed pods. */
  method CalculateMemoryRequests(node: Node, all: seq<Pod>) returns (pct: real)
    ensures pct == RequestPercent(TotalMemory(PodsOnNode(all, node.name)), node.memoryCapacity, node.memoryAllocatable)
  {
    if node.memoryCapacity == 0 {
      return 0.0;
    }
    if node.memoryAllocatable == 0 {
      return 0.0;
    }
    var pods := GetPodsOnNode(all, node.name);
    var total := 0;
    var i := 0;
    while i < |pods|
      invariant 0 <= i <= |pods|
      invariant total == TotalMemory(pods[..i])
    {
      var cs := pods[i].containers;
      var j := 0;
      while j < |cs|
        invariant 0 <= j <= |cs|
        invariant total == TotalMemory(pods[..i]) + MemoryOf(cs[..j])
      {
        assert cs[..j + 1][..j] == cs[..j];
        total := total + cs[j].memoryBytes;
        j := j + 1;
      }
      assert cs[..j] == cs;
      assert pods[..i + 1][..i] == pods[..i];
      i := i + 1;
    }
    assert pods[..i] == pods;
    var usagePercentage := (total as real) / (node.memoryAllocatable as real) * 100.0;
    pct := if usagePercentage < 100.0 then usagePercentage else 100.0;
  }

  // ---------------------------------------------------------------------
  // Classification

  predicate IsOverloaded(cpu: real, memory: real)
  {
    cpu > CpuThresholdHigh || memory > MemoryThresholdHigh
  }

  predicate IsUnderutilized(cpu: real, memory: real)
  {
    cpu < CpuThresholdLow && memory < MemoryThresholdLow
  }

  /** The usage record analyzeNodeResourceUsage builds for one node. */
  function UsageOf(n: Node, all: seq<Pod>): Usage
  {
    var onNode := PodsOnNode(all, n.name);
    var cpu := RequestPercent(TotalCpu(onNode), n.cpuCapacityMilli, n.cpuAllocatableMilli);
    var memory := RequestPercent(TotalMemory(onNode), n.memoryCapacity, n.memoryAllocatable);
    Usage(n.name, cpu, memory, IsOverloaded(cpu, memory), IsUnderutilized(cpu, memory), onNode)
  }

  /**
   * The two classes exclude each other, every usage lies in [0, 100] when
   * requests and allocatable amounts are non-negative, and the pods
   * recorded for a node are exactly its evictable pods.
   */
  lemma UsageOfFacts(n: Node, all: seq<Pod>)
    requires NonNegativeRequests(all)
    requires n.cpuAllocatableMilli >= 0 && n.memoryAllocatable >= 0
    ensures var u := UsageOf(n, all);
      && !(u.isOverloaded && u.isUnderutilized)
      && 0.0 <= u.cpuRequests <= 100.0 && 0.0 <= u.memoryRequests <= 100.0
      && (forall p :: p in u.pods <==> p in all && p.nodeName == n.name && IsPodEvictable(p))
  {
    var onNode := PodsOnNode(all, n.name);
    FilterMembers(all, OnNodeAndEvictable(n.name));
    assert forall p :: p in onNode ==> p in all;
    TotalsNonNegative(onNode);
  }

  /**
   * analyzeNodeResourceUsage, given the result of listing the pods (None:
   * the list failed). Every node gets one record, in order; a failed list
   * fails the whole analysis as soon as there is a node to analyze.
   */
  method AnalyzeNodeResourceUsage(nodes: seq<Node>, podList: Option<seq<Pod>>) returns (r: Option<seq<Usage>>)
    ensures podList.None? ==> (r.None? <==> |nodes| > 0)
    ensures podList.Some? ==> r.Some? && |r.value| == |nodes|
    ensures podList.Some? ==> forall i :: 0 <= i < |nodes| ==> r.value[i] == UsageOf(nodes[i], podList.value)
    ensures r.Some? ==> |r.value| == |nodes| && forall i :: 0 <= i < |r.value| ==>
              && r.value[i].nodeName == nodes[i].name
              && (r.value[i].isOverloaded <==> r.value[i].cpuRequests > 60.0 || r.value[i].memoryRequests > 60.0)
              && (r.value[i].isUnderutilized <==> r.value[i].cpuRequests < 40.0 && r.value[i].memoryRequests < 40.0)
  {
    var usages: seq<Usage> := [];
    var i := 0;
    while i < |nodes|
      invariant 0 <= i <= |nodes|
      invariant podList.Some? || i == 0
      invariant |usages| == i
      invariant podList.Some? ==> forall k :: 0 <= k < i ==> usages[k] == UsageOf(nodes[k], podList.value)
    {
      if podList.None? {
        return None;
      }
      var all := podList.value;
      var node := nodes[i];
      var cpu := CalculateCpuRequests(node, all);
      var memory := CalculateMemoryRequests(node, all);
      var overloaded := cpu > CpuThresholdHigh || memory > MemoryThresholdHigh;
      var underutilized := cpu < CpuThresholdLow && memory < MemoryThresholdLow;
      var pods := GetPodsOnNode(all, node.name);
      usages := usages + [Usage(node.name, cpu, memory, overloaded, underutilized, pods)];
      i := i + 1;
    }
    return Some(usages);
  }
  predicate MarkedOverloaded(u: Usage)
  {
    u.isOverloaded
  }

  predicate MarkedUnderutilized(u: Usage)
  {
    u.isUnderutilized
  }

  /** getOverloadedNodes: exactly the records flagged overloaded, in their original order. */
  method GetOverloadedNodes(usages: seq<Usage>) returns (r: seq<Usage>)
    ensures r == Filter(usages, MarkedOverloaded)
    ensures forall u :: u in r <==> u in usages && u.isOverloaded
  {
    r := Select(usages, MarkedOverloaded);
    FilterMembers(usages, MarkedOverloaded);
  }

  /** getUnderutilizedNodes: exactly the records flagged underutilized, in their original order. */
  method GetUnderutilizedNodes(usages: seq<Usage>) returns (r: seq<Usage>)
    ensures r == Filter(usages, MarkedUnderutilized)
    ensures forall u :: u in r <==> u in usages && u.isUnderutilized
  {
    r := Select(usages, MarkedUnderutilized);
    FilterMembers(usages, MarkedUnderutilized);
  }
}
