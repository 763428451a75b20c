/**
 * Node balancer, part 2: what happens to one pod chosen for eviction.
 * Pre-flight validation (evictability, termination, PodDisruptionBudgets),
 * the classification of errors returned by the Eviction API, and the
 * record of rebalancing events, which never holds two events under one key.
 *
 * The cluster is a value: the PDBs it holds, whether listing them fails,
 * and the error text the Eviction API answers for a pod, if any.
 */
module Eviction {
  import opened Kube
  import opened NodeUsage

  const NodeRebalancingReason := "NodeRebalancing"
  const EvictionGracePeriodSeconds := 30

  /** A label selector reduced to its matchLabels; `convertible` is false when
      LabelSelectorAsSelector would reject it. */
  datatype Selector = Selector(matchLabels: StringMap, convertible: bool)

  /** intstr.IntOrString. */
  datatype IntOrString = IntVal(i: int) | StrVal(s: string)

  datatype Pdb = Pdb(
    name: string,
    namespace: string,
    selector: Option<Selector>,
    minAvailable: IntOrString,
    currentHealthy: int)

  /** (namespace, name) of a pod. */
  type PodKey = (string, string)

  datatype Cluster = Cluster(
    pdbs: seq<Pdb>,
    pdbListFails: bool,
    evictionErrors: map<PodKey, string>)

  function KeyOf(p: Pod): PodKey
  {
    (p.namespace, p.name)
  }

  /** IntOrString.IntValue: a string is read with Atoi, keeping the value it returns beside an error. */
  function IntValue(x: IntOrString): (r: int)
    ensures x.IntVal? ==> r == x.i
    ensures x.StrVal? && Atoi(x.s).Some? ==> r == Atoi(x.s).value
    ensures x.StrVal? && !AtoiSyntax(x.s) && !UintOverflow(x.s) ==> r == 0
    ensures x.StrVal? && UintOverflow(x.s) ==> r == (if |x.s| > 0 && x.s[0] == '-' then MinInt64 else MaxInt64)
    ensures x.StrVal? && AtoiSyntax(x.s) && SignedValue(x.s) < MinInt64 ==> r == MinInt64
    ensures x.StrVal? && AtoiSyntax(x.s) && MaxInt64 < SignedValue(x.s) ==> r == MaxInt64
  {
    match x
    case IntVal(i) => i
    case StrVal(s) => AtoiValue(s)
  }

  /** Every matchLabels pair is present in the pod's labels. */
  predicate SelectorMatches(sel: Selector, labels: StringMap)
  {
    forall k :: k in sel.matchLabels ==> k in labels && labels[k] == sel.matchLabels[k]
  }

  /** podMatchesPDB: a nil or unconvertible selector covers no pod. */
  function PodMatchesPdb(pod: Pod, pdb: Pdb): (r: bool)
    ensures pdb.selector.None? ==> !r
    ensures r <==> pdb.selector.Some? && pdb.selector.value.convertible &&
                   forall k :: k in pdb.selector.value.matchLabels ==>
                     k in pod.labels && pod.labels[k] == pdb.selector.value.matchLabels[k]
  {
    match pdb.selector
    case None => false
    case Some(sel) => sel.convertible && SelectorMatches(sel, pod.labels)
  }

  /** A convertible selector with no labels is labels.Everything(): it covers every pod. */
  lemma EmptySelectorCoversAll(pod: Pod, pdb: Pdb)
    requires pdb.selector == Some(Selector(map[], true))
    ensures PodMatchesPdb(pod, pdb)
  {
  }

  /** Evicting `pod` would break `pdb`: it covers the pod and healthy pods do not exceed the minimum. */
  predicate Violates(pod: Pod, pdb: Pdb)
  {
    PodMatchesPdb(pod, pdb) && pdb.currentHealthy <= ToInt32(IntValue(pdb.minAvailable))
  }

  /** The name of the first PDB in `pdbs` that evicting `pod` would break. */
  function PdbViolation(pod: Pod, pdbs: seq<Pdb>): (r: Option<string>)
  {
    if |pdbs| == 0 then None
    else if Violates(pod, pdbs[0]) then Some(pdbs[0].name)
    else PdbViolation(pod, pdbs[1..])
  }

  /** PdbViolation reports a breach exactly when one exists, and names the first one. */
  lemma {:induction false} PdbViolationFirst(pod: Pod, pdbs: seq<Pdb>)
    ensures PdbViolation(pod, pdbs).None? <==> forall k :: 0 <= k < |pdbs| ==> !Violates(pod, pdbs[k])
    ensures PdbViolation(pod, pdbs).Some? ==>
              exists k :: 0 <= k < |pdbs| && Violates(pod, pdbs[k]) && pdbs[k].name == PdbViolation(pod, pdbs).value &&
                          forall m :: 0 <= m < k ==> !Violates(pod, pdbs[m])
  {
    if |pdbs| > 0 && !Violates(pod, pdbs[0]) {
      PdbViolationFirst(pod, pdbs[1..]);
      if PdbViolation(pod, pdbs).Some? {
        var k :| 0 <= k < |pdbs[1..]| && Violates(pod, pdbs[1..][k]) && pdbs[1..][k].name == PdbViolation(pod, pdbs[1..]).value &&
                  forall m :: 0 <= m < k ==> !Violates(pod, pdbs[1..][m]);
        assert pdbs[k + 1] == pdbs[1..][k];
        assert forall m :: 0 <= m < k + 1 ==> !Violates(pod, pdbs[m]) by {
          forall m | 0 <= m < k + 1 ensures !Violates(pod, pdbs[m]) {
            if m > 0 { assert pdbs[m] == pdbs[1..][m - 1]; }
          }
        }
      } else {
        forall k | 0 <= k < |pdbs| ensures !Violates(pod, pdbs[k]) {
          if k > 0 { assert pdbs[k] == pdbs[1..][k - 1]; }
        }
      }
    }
  }

  /** The loop over the namespace's PDBs in checkPodDisruptionBudget. */
  method CheckPdbs(pod: Pod, pdbs: seq<Pdb>) returns (err: Option<string>)
    ensures err == PdbViolation(pod, pdbs)
    ensures err.None? <==> forall k :: 0 <= k < |pdbs| ==> !Violates(pod, pdbs[k])
  {
    PdbViolationFirst(pod, pdbs);
    var i := 0;
    while i < |pdbs|
      invariant 0 <= i <= |pdbs|
      invariant PdbViolation(pod, pdbs) == PdbViolation(pod, pdbs[i..])
    {
      assert pdbs[i..][1..] == pdbs[i + 1..];
      if PodMatchesPdb(pod, pdbs[i]) {
        if pdbs[i].currentHealthy <= ToInt32(IntValue(pdbs[i].minAvailable)) {
          return Some(pdbs[i].name);
        }
      }
      i := i + 1;
    }
    return None;
  }

  function InNamespace(namespace: string): Pdb -> bool
  {
    (pdb: Pdb) => pdb.namespace == namespace
  }

  /** List(..., InNamespace): None when the list call fails. */
  function ListPdbs(c: Cluster, namespace: string): (r: Option<seq<Pdb>>)
  {
    if c.pdbListFails then None else Some(Filter(c.pdbs, InNamespace(namespace)))
  }

  /** Why validateEviction refuses a pod. */
  datatype SkipReason = NotEvictable | AlreadyTerminating | PdbListFailed | PdbViolated(pdbName: string)

  /** checkPodDisruptionBudget as a value: the listing error, or the first PDB of the pod's namespace it would break. */
  function PdbCheck(c: Cluster, pod: Pod): (r: Option<SkipReason>)
  {
    match ListPdbs(c, pod.namespace)
    case None => Some(PdbListFailed)
    case Some(pdbs) =>
      match PdbViolation(pod, pdbs)
      case None => None
      case Some(name) => Some(PdbViolated(name))
  }

  /** checkPodDisruptionBudget. */
  method CheckPodDisruptionBudget(c: Cluster, pod: Pod) returns (err: Option<SkipReason>)
    ensures err == PdbCheck(c, pod)
    ensures err.None? <==>
              !c.pdbListFails && forall pdb :: pdb in c.pdbs && pdb.namespace == pod.namespace ==> !Violates(pod, pdb)
    ensures err.Some? ==> err.value.PdbListFailed? || err.value.PdbViolated?
    ensures c.pdbListFails ==> err == Some(PdbListFailed)
  {
    var listed := ListPdbs(c, pod.namespace);
    if listed.None? {
      return Some(PdbListFailed);
    }
    var v := CheckPdbs(pod, listed.value);
    FilterMembers(c.pdbs, InNamespace(pod.namespace));
    if v.Some? {
      err := Some(PdbViolated(v.value));
      var k :| 0 <= k < |listed.value| && Violates(pod, listed.value[k]);
      assert listed.value[k] in c.pdbs;
    } else {
      err := None;
      forall pdb | pdb in c.pdbs && pdb.namespace == pod.namespace ensures !Violates(pod, pdb) {
        assert pdb in listed.value;
      }
    }
  }

  /** validateEviction as a value: the first failing check, None when all pass. */
  function ValidationFailure(c: Cluster, pod: Pod): (r: Option<SkipReason>)
  {
    if !IsPodEvictable(pod) then Some(NotEvictable)
    else if pod.terminating then Some(AlreadyTerminating)
    else PdbCheck(c, pod)
  }

  /**
   * A pod passes validation exactly when it is evictable, the PDBs can be
   * listed and none of its namespace's PDBs would be broken. The terminating
   * check never decides: isPodEvictable already refuses terminating pods.
   */
  lemma ValidationPasses(c: Cluster, pod: Pod)
    ensures ValidationFailure(c, pod).None? <==>
              IsPodEvictable(pod) && !c.pdbListFails &&
              forall pdb :: pdb in c.pdbs && pdb.namespace == pod.namespace ==> !Violates(pod, pdb)
    ensures ValidationFailure(c, pod) != Some(AlreadyTerminating)
  {
    FilterMembers(c.pdbs, InNamespace(pod.namespace));
    if !c.pdbListFails {
      var pdbs := Filter(c.pdbs, InNamespace(pod.namespace));
      PdbViolationFirst(pod, pdbs);
      if PdbViolation(pod, pdbs).Some? {
        var k :| 0 <= k < |pdbs| && Violates(pod, pdbs[k]);
        assert pdbs[k] in c.pdbs;
      } else {
        forall pdb | pdb in c.pdbs && pdb.namespace == pod.namespace ensures !Violates(pod, pdb) {
          assert pdb in pdbs;
        }
      }
    }
  }

  /** validateEviction. */
  method ValidateEviction(c: Cluster, pod: Pod) returns (err: Option<SkipReason>)
    ensures err == ValidationFailure(c, pod)
  {
    if !IsPodEvictable(pod) {
      return Some(NotEvictable);
    }
    if pod.terminating {
      return Some(AlreadyTerminating);
    }
    err := CheckPodDisruptionBudget(c, pod);
  }

  /** The error evictPod hands back after an Eviction API failure. */
  datatype EvictionFailure = Forbidden(cause: string) | Failed(cause: string)

  /**
   * handleEvictionError. The first matching phrase wins: a PDB refusal or a
   * pod already gone are not errors, "forbidden" is reported as such, and
   * anything else is a failure.
   */
  function HandleEvictionError(text: string): (r: Option<EvictionFailure>)
    ensures r.None? <==> Contains(text, "PodDisruptionBudget") || Contains(text, "not found")
    ensures r.Some? ==> r.value.cause == text
    ensures r.Some? ==> (r.value.Forbidden? <==> Contains(text, "forbidden"))
  {
    if Contains(text, "PodDisruptionBudget") then None
    else if Contains(text, "not found") then None
    else if Contains(text, "forbidden") then Some(Forbidden(text))
    else Some(Failed(text))
  }

  /** The phrases are tried in order: a PDB refusal also worded "forbidden" is not an error. */
  lemma PdbRefusalOutranksForbidden()
    ensures HandleEvictionError("forbidden: PodDisruptionBudget") == None
  {
    var t := "forbidden: PodDisruptionBudget";
    assert OccursAt(t, "PodDisruptionBudget", 11);
    ContainsMeansOccurs(t, "PodDisruptionBudget");
  }

  /** A forbidden refusal is reported, an unknown one is a plain failure. */
  lemma ForbiddenIsReported()
    ensures HandleEvictionError("forbidden") == Some(Forbidden("forbidden"))
    ensures HandleEvictionError("timeout") == Some(Failed("timeout"))
  {
    assert OccursAt("forbidden", "forbidden", 0);
    ContainsMeansOccurs("forbidden", "forbidden");
  }

  /**
   * What evictPod returns for a pod: nothing when validation skips it (the
   * skip is silent), otherwise the classified API error, if the API failed.
   */
  function EvictError(c: Cluster, pod: Pod): (r: Option<EvictionFailure>)
    ensures ValidationFailure(c, pod).Some? ==> r.None?
    ensures r.Some? ==> KeyOf(pod) in c.evictionErrors && r == HandleEvictionError(c.evictionErrors[KeyOf(pod)])
    ensures ValidationFailure(c, pod).None? && KeyOf(pod) in c.evictionErrors ==> r == HandleEvictionError(c.evictionErrors[KeyOf(pod)])
    ensures ValidationFailure(c, pod).None? && KeyOf(pod) !in c.evictionErrors ==> r.None?
  {
    if ValidationFailure(c, pod).Some? then None
    else if KeyOf(pod) in c.evictionErrors then HandleEvictionError(c.evictionErrors[KeyOf(pod)])
    else None
  }

  /** The Eviction API is called for the pod. */
  predicate EvictionRequested(c: Cluster, pod: Pod)
  {
    ValidationFailure(c, pod).None?
  }

  /** The Eviction API accepted the request. */
  predicate EvictionAccepted(c: Cluster, pod: Pod)
  {
    EvictionRequested(c, pod) && KeyOf(pod) !in c.evictionErrors
  }

  // ---------------------------------------------------------------------
  // Rebalancing events

  datatype Event = Event(namespace: string, name: string, podName: string, targetNode: string, reason: string)

  /** "<pod>-rebalancing-event". */
  function EventName(pod: Pod): string
  {
    pod.name + "-rebalancing-event"
  }

  predicate HasEvent(events: seq<Event>, namespace: string, name: string)
  {
    exists e <- events :: e.namespace == namespace && e.name == name
  }

  /** No two events share a namespace and a name, as the API server enforces. */
  predicate UniqueKeys(events: seq<Event>)
  {
    forall i, j :: 0 <= i < j < |events| ==>
      events[i].namespace != events[j].namespace || events[i].name != events[j].name
  }

  /** createEvictionEvent: a new event unless one by that name already exists in the namespace. */
  function RecordEvent(events: seq<Event>, pod: Pod, targetNode: string): (r: seq<Event>)
    ensures HasEvent(r, pod.namespace, EventName(pod))
    ensures HasEvent(events, pod.namespace, EventName(pod)) ==> r == events
    ensures !HasEvent(events, pod.namespace, EventName(pod)) ==>
              r == events + [Event(pod.namespace, EventName(pod), pod.name, targetNode, NodeRebalancingReason)]
  {
    if HasEvent(events, pod.namespace, EventName(pod)) then events
    else
      var e := Event(pod.namespace, EventName(pod), pod.name, targetNode, NodeRebalancingReason);
      assert e in events + [e];
      events + [e]
  }

  /** Recording keeps event keys unique. */
  lemma RecordEventKeepsKeysUnique(events: seq<Event>, pod: Pod, targetNode: string)
    requires UniqueKeys(events)
    ensures UniqueKeys(RecordEvent(events, pod, targetNode))
  {
    var r := RecordEvent(events, pod, targetNode);
    if !HasEvent(events, pod.namespace, EventName(pod)) {
      forall i, j | 0 <= i < j < |r|
        ensures r[i].namespace != r[j].namespace || r[i].name != r[j].name
      {
        if j == |events| {
          assert r[i] in events;
        }
      }
    }
  }

  /** Recording the same pod again changes nothing, whatever the new target. */
  lemma RecordEventIdempotent(events: seq<Event>, pod: Pod, t1: string, t2: string)
    ensures RecordEvent(RecordEvent(events, pod, t1), pod, t2) == RecordEvent(events, pod, t1)
  {
  }
}
