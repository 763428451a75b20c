/**
 * Node balancer, part 3: choosing which pods leave an overloaded node and
 * where they go. Pods are ordered by a combined weight with an in-place
 * exchange sort (largest first, not stable), and each pod goes to the
 * underutilized node with the lowest score, the first one on ties.
 */
module Placement {
  import opened Kube
  import opened NodeUsage

  const Mebibyte: int := 1024 * 1024

  // ---------------------------------------------------------------------
  // Pod weights

  /** One container's weight: millicores plus whole mebibytes, each division truncating. */
  function ContainerWeight(c: Container): int
  {
    c.cpuMilli + Quo(Quo(c.memoryBytes, 1024), 1024)
  }

  function Weight(cs: seq<Container>): int
  {
    if |cs| == 0 then 0 else Weight(cs[..|cs| - 1]) + ContainerWeight(cs[|cs| - 1])
  }

  /** The sort key of a pod. */
  function PodWeight(p: Pod): int
  {
    Weight(p.containers)
  }

  /** Dividing a non-negative byte count by 1024 twice is the floor of dividing it by one mebibyte. */
  lemma MebibytesFloor(m: int)
    requires m >= 0
    ensures Quo(Quo(m, 1024), 1024) == m / Mebibyte
  {
    var q := m / 1024;
    var r := m % 1024;
    var q2 := q / 1024;
    var r2 := q % 1024;
    assert m == q2 * Mebibyte + (r2 * 1024 + r);
    assert 0 <= r2 * 1024 + r < Mebibyte;
  }

  /** The weight adds CPU millicores and memory mebibytes, container by container. */
  lemma {:induction false} WeightSplits(cs: seq<Container>)
    requires forall c :: c in cs ==> c.memoryBytes >= 0
    ensures Weight(cs) >= CpuOf(cs)
    ensures Weight(cs) * Mebibyte <= CpuOf(cs) * Mebibyte + MemoryOf(cs)
  {
    if |cs| > 0 {
      var init := cs[..|cs| - 1];
      var c := cs[|cs| - 1];
      assert forall x :: x in init ==> x in cs;
      WeightSplits(init);
      MebibytesFloor(c.memoryBytes);
      assert (c.memoryBytes / Mebibyte) * Mebibyte <= c.memoryBytes;
    }
  }

  /** getPodTotalResources. */
  method GetPodTotalResources(p: Pod) returns (total: int)
    ensures total == PodWeight(p)
  {
    total := 0;
    var i := 0;
    while i < |p.containers|
      invariant 0 <= i <= |p.containers|
      invariant total == Weight(p.containers[..i])
    {
      assert p.containers[..i + 1][..i] == p.containers[..i];
      var c := p.containers[i];
      total := total + c.cpuMilli + Quo(Quo(c.memoryBytes, 1024), 1024);
      i := i + 1;
    }
    assert p.containers[..i] == p.containers;
  }

  /** getPodCPURequest: the pod's CPU requests in millicores, as a float. */
  method GetPodCpuRequest(p: Pod) returns (cpu: real)
    ensures cpu == CpuOf(p.containers) as real
  {
    var total := 0;
    var i := 0;
    while i < |p.containers|
      invariant 0 <= i <= |p.containers|
      invariant total == CpuOf(p.containers[..i])
    {
      assert p.containers[..i + 1][..i] == p.containers[..i];
      total := total + p.containers[i].cpuMilli;
      i := i + 1;
    }
    assert p.containers[..i] == p.containers;
    cpu := total as real;
  }

  /** getPodMemoryRequest: the pod's memory requests in bytes, as a float. */
  method GetPodMemoryRequest(p: Pod) returns (memory: real)
    ensures memory == MemoryOf(p.containers) as real
  {
    var total := 0;
    var i := 0;
    while i < |p.containers|
      invariant 0 <= i <= |p.containers|
      invariant total == MemoryOf(p.containers[..i])
    {
      assert p.containers[..i + 1][..i] == p.containers[..i];
      total := total + p.containers[i].memoryBytes;
      i := i + 1;
    }
    assert p.containers[..i] == p.containers;
    memory := total as real;
  }

  // ---------------------------------------------------------------------
  // sortPodsByResourceUsage: for each i, compare with every later j and
  // swap when the later pod is heavier

  function Swap<T>(s: seq<T>, i: nat, j: nat): seq<T>
    requires i < |s| && j < |s|
  {
    s[i := s[j]][j := s[i]]
  }

  /** One comparison of the inner loop: swap positions i and j when the later element is heavier under w. */
  function InnerStep<T>(s: seq<T>, w: T -> int, i: nat, j: nat): (r: seq<T>)
    requires i < j < |s|
    ensures |r| == |s|
  {
    if w(s[i]) < w(s[j]) then Swap(s, i, j) else s
  }

  /** A comparison leaves the positions before i alone and only permutes. */
  lemma InnerStepPermutes<T>(s: seq<T>, w: T -> int, i: nat, j: nat)
    requires i < j < |s|
    ensures forall k :: 0 <= k < i ==> InnerStep(s, w, i, j)[k] == s[k]
    ensures multiset(InnerStep(s, w, i, j)) == multiset(s)
  {
  }

  /** The inner loop for position i after the comparisons with i+1 .. j-1. */
  function InnerPass<T>(s: seq<T>, w: T -> int, i: nat, j: nat): (r: seq<T>)
    requires i < j <= |s|
    ensures |r| == |s|
    decreases j
  {
    if j == i + 1 then s else InnerStep(InnerPass(s, w, i, j - 1), w, i, j - 1)
  }

  /** The outer loop after its first i iterations. */
  function OuterPass<T>(s: seq<T>, w: T -> int, i: nat): (r: seq<T>)
    requires i < |s|
    ensures |r| == |s|
  {
    if i == 0 then s else InnerPass(OuterPass(s, w, i - 1), w, i - 1, |s|)
  }

  /** The order sortPodsByResourceUsage leaves a slice in. */
  function ExchangeSorted(s: seq<Pod>): seq<Pod>
  {
    if |s| == 0 then s else OuterPass(s, PodWeight, |s| - 1)
  }

  /** Heaviest first under w. */
  predicate SortedBy<T>(s: seq<T>, w: T -> int)
  {
    forall a, b :: 0 <= a < b < |s| ==> w(s[a]) >= w(s[b])
  }

  /** Heaviest pod first. */
  predicate SortedByWeight(s: seq<Pod>)
  {
    SortedBy(s, PodWeight)
  }

  /** Every position before i is final: it is no lighter than anything after it. */
  predicate Settled<T>(s: seq<T>, w: T -> int, i: nat)
  {
    forall a, b :: 0 <= a < b < |s| && a < i ==> w(s[a]) >= w(s[b])
  }

  /** The inner pass leaves the positions before i alone and only permutes. */
  lemma {:induction false} InnerPassPermutes<T>(s: seq<T>, w: T -> int, i: nat, j: nat)
    requires i < j <= |s|
    ensures forall k :: 0 <= k < i ==> InnerPass(s, w, i, j)[k] == s[k]
    ensures multiset(InnerPass(s, w, i, j)) == multiset(s)
    decreases j
  {
    if j > i + 1 {
      InnerPassPermutes(s, w, i, j - 1);
      InnerStepPermutes(InnerPass(s, w, i, j - 1), w, i, j - 1);
    }
  }

  /** After the comparisons up to j, position i holds a heaviest element of positions i .. j-1. */
  lemma {:induction false} InnerPassMax<T>(s: seq<T>, w: T -> int, i: nat, j: nat)
    requires i < j <= |s|
    ensures forall k :: i < k < j ==> w(InnerPass(s, w, i, j)[i]) >= w(InnerPass(s, w, i, j)[k])
    decreases j
  {
    if j > i + 1 {
      InnerPassMax(s, w, i, j - 1);
      var t := InnerPass(s, w, i, j - 1);
      var r := InnerPass(s, w, i, j);
      assert r == InnerStep(t, w, i, j - 1);
      forall k | i < k < j ensures w(r[i]) >= w(r[k]) {
        if k < j - 1 {
          assert r[k] == t[k];
        }
      }
    }
  }

  /** A permutation that keeps the first i positions draws every later element from t's positions i and later. */
  lemma FromSuffix<T>(t: seq<T>, r: seq<T>, i: nat, b: nat) returns (b': nat)
    requires |t| == |r| && i <= b < |r|
    requires forall k :: 0 <= k < i ==> r[k] == t[k]
    requires multiset(r) == multiset(t)
    ensures i <= b' < |t| && t[b'] == r[b]
  {
    assert r[..i] == t[..i];
    assert multiset(r) == multiset(r[..i]) + multiset(r[i..]) by { assert r == r[..i] + r[i..]; }
    assert multiset(t) == multiset(t[..i]) + multiset(t[i..]) by { assert t == t[..i] + t[i..]; }
    var x := r[b];
    assert x == r[i..][b - i];
    assert multiset(r[i..])[x] > 0;
    assert multiset(r)[x] == multiset(r[..i])[x] + multiset(r[i..])[x];
    assert multiset(t)[x] == multiset(t[..i])[x] + multiset(t[i..])[x];
    assert multiset(r[..i]) == multiset(t[..i]);
    assert multiset(t[i..])[x] == multiset(r[i..])[x];
    assert x in multiset(t[i..]);
    var k :| 0 <= k < |t[i..]| && t[i..][k] == r[b];
    b' := i + k;
  }

  /** One iteration of the outer loop extends the settled prefix by one position. */
  lemma OuterStepSettles<T>(t: seq<T>, w: T -> int, i: nat)
    requires i < |t| && Settled(t, w, i)
    ensures Settled(InnerPass(t, w, i, |t|), w, i + 1)
  {
    var r := InnerPass(t, w, i, |t|);
    InnerPassPermutes(t, w, i, |t|);
    InnerPassMax(t, w, i, |t|);
    forall a, b | 0 <= a < b < |r| && a < i + 1 ensures w(r[a]) >= w(r[b]) {
      if a < i && i <= b {
        var b' := FromSuffix(t, r, i, b);
        assert w(t[a]) >= w(t[b']);
      }
    }
  }

  /** After i outer iterations the first i positions are settled and the elements are the same. */
  lemma {:induction false} OuterPassSorts<T>(s: seq<T>, w: T -> int, i: nat)
    requires i < |s|
    ensures Settled(OuterPass(s, w, i), w, i)
    ensures multiset(OuterPass(s, w, i)) == multiset(s)
  {
    if i > 0 {
      OuterPassSorts(s, w, i - 1);
      OuterStepSettles(OuterPass(s, w, i - 1), w, i - 1);
      InnerPassPermutes(OuterPass(s, w, i - 1), w, i - 1, |s|);
    }
  }

  /** sortPodsByResourceUsage sorts heaviest first and keeps the same pods. */
  lemma ExchangeSortedSorts(s: seq<Pod>)
    ensures SortedByWeight(ExchangeSorted(s))
    ensures multiset(ExchangeSorted(s)) == multiset(s)
  {
    if |s| > 0 {
      OuterPassSorts(s, PodWeight, |s| - 1);
    }
  }

  function OnePod(name: string, cpuMilli: int): Pod
  {
    Pod(name, "default", "node", map[], map[], false, false, [Container(cpuMilli, 0)])
  }

  /** The sort is not stable: of two equally heavy pods, the later one can end up first. */
  lemma ExchangeSortNotStable()
    ensures ExchangeSorted([OnePod("a", 1), OnePod("b", 1), OnePod("c", 2)]) ==
            [OnePod("c", 2), OnePod("b", 1), OnePod("a", 1)]
  {
    var a, b, c := OnePod("a", 1), OnePod("b", 1), OnePod("c", 2);
    assert PodWeight(a) == 1 && PodWeight(b) == 1 && PodWeight(c) == 2 by {
      assert [Container(1, 0)][..0] == [];
      assert [Container(2, 0)][..0] == [];
    }
    var s := [a, b, c];
    assert InnerPass(s, PodWeight, 0, 2) == s;
    assert InnerPass(s, PodWeight, 0, 3) == [c, b, a];
    assert InnerPass([c, b, a], PodWeight, 1, 3) == [c, b, a];
  }

  /** The inner loop of sortPodsByResourceUsage for position i. */
  method CompareWithLater(a: array<Pod>, i: nat)
    requires i < a.Length
    modifies a
    ensures a[..] == InnerPass(old(a[..]), PodWeight, i, a.Length)
  {
    ghost var t := a[..];
    var j := i + 1;
    while j < a.Length
      invariant i < j <= a.Length
      invariant a[..] == InnerPass(t, PodWeight, i, j)
    {
      ghost var before := a[..];
      var podI := GetPodTotalResources(a[i]);
      var podJ := GetPodTotalResources(a[j]);
      if podI < podJ {
        a[i], a[j] := a[j], a[i];
        assert a[..] == Swap(before, i, j);
      }
      j := j + 1;
    }
  }

  /** sortPodsByResourceUsage, in place. */
  method SortPodsByResourceUsage(a: array<Pod>)
    modifies a
    ensures a[..] == ExchangeSorted(old(a[..]))
    ensures SortedByWeight(a[..]) && multiset(a[..]) == multiset(old(a[..]))
  {
    ghost var s0 := a[..];
    ExchangeSortedSorts(s0);
    if a.Length == 0 {
      return;
    }
    var i := 0;
    while i < a.Length - 1
      invariant 0 <= i < a.Length
      invariant a[..] == OuterPass(s0, PodWeight, i)
    {
      CompareWithLater(a, i);
      i := i + 1;
    }
  }

  // ---------------------------------------------------------------------
  // findBestTargetNode

  /** The score of placing a pod with the given requests on a node: lower is better. */
  function Score(u: Usage, podCpu: real, podMemory: real): real
  {
    (u.cpuRequests + podCpu) + (u.memoryRequests + podMemory)
  }

  /** The index of the first node with the lowest score; None for no nodes. */
  function BestTarget(s: seq<Usage>, podCpu: real, podMemory: real): (r: Option<nat>)
    ensures r.None? <==> |s| == 0
    ensures r.Some? ==> r.value < |s|
  {
    if |s| == 0 then None
    else
      match BestTarget(s[..|s| - 1], podCpu, podMemory)
      case None => Some(|s| - 1)
      case Some(b) =>
        if Score(s[|s| - 1], podCpu, podMemory) < Score(s[b], podCpu, podMemory) then Some(|s| - 1) else Some(b)
  }

  /** The chosen node scores lowest, and every node before it scores strictly higher. */
  lemma {:induction false} BestTargetIsFirstMinimum(s: seq<Usage>, podCpu: real, podMemory: real)
    requires |s| > 0
    ensures var b := BestTarget(s, podCpu, podMemory).value;
            (forall k :: 0 <= k < |s| ==> Score(s[b], podCpu, podMemory) <= Score(s[k], podCpu, podMemory)) &&
            (forall k :: 0 <= k < b ==> Score(s[b], podCpu, podMemory) < Score(s[k], podCpu, podMemory))
  {
    var init := s[..|s| - 1];
    if |init| > 0 {
      BestTargetIsFirstMinimum(init, podCpu, podMemory);
      var b0 := BestTarget(init, podCpu, podMemory).value;
      assert forall k :: 0 <= k < |init| ==> s[k] == init[k];
    }
  }

  /** findBestTargetNode; the index stands for the address of the chosen slice element. */
  method FindBestTargetNode(under: array<Usage>, pod: Pod) returns (best: Option<nat>)
    ensures best == BestTarget(under[..], CpuOf(pod.containers) as real, MemoryOf(pod.containers) as real)
  {
    ghost var cpu := CpuOf(pod.containers) as real;
    ghost var memory := MemoryOf(pod.containers) as real;
    best := None;
    var bestScore: real := 0.0;
    var i := 0;
    while i < under.Length
      invariant 0 <= i <= under.Length
      invariant best == BestTarget(under[..i], cpu, memory)
      invariant best.Some? ==> best.value < i && bestScore == Score(under[best.value], cpu, memory)
    {
      assert under[..i + 1][..i] == under[..i];
      var podCpu := GetPodCpuRequest(pod);
      var podMemory := GetPodMemoryRequest(pod);
      var score := (under[i].cpuRequests + podCpu) + (under[i].memoryRequests + podMemory);
      if best.None? || score < bestScore {
        best := Some(i);
        bestScore := score;
      }
      i := i + 1;
    }
    assert under[..i] == under[..];
  }

  // ---------------------------------------------------------------------
  // Updating the chosen node after a placement

  /**
   * The target's usage after a pod moves there: the raw CPU millicores and
   * memory bytes are added to the percentages; nothing else changes.
   */
  function Bump(s: seq<Usage>, t: nat, pod: Pod): (r: seq<Usage>)
    requires t < |s|
    ensures |r| == |s|
    ensures forall k :: 0 <= k < |s| && k != t ==> r[k] == s[k]
    ensures r[t] == s[t].(cpuRequests := s[t].cpuRequests + CpuOf(pod.containers) as real,
                          memoryRequests := s[t].memoryRequests + MemoryOf(pod.containers) as real)
  {
    s[t := s[t].(cpuRequests := s[t].cpuRequests + CpuOf(pod.containers) as real,
                 memoryRequests := s[t].memoryRequests + MemoryOf(pod.containers) as real)]
  }

  /**
   * The units do not match: a node at 10% CPU that receives a half-core pod
   * is recorded at 510 "percent".
   */
  lemma BumpMixesUnits()
    ensures Bump([Usage("n", 10.0, 0.0, false, true, [])], 0, OnePod("p", 500))[0].cpuRequests == 510.0
  {
    assert [Container(500, 0)][..0] == [];
  }
}
