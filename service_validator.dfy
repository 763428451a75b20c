/**
 * The service validator: a labelled Service is valid when it has endpoint
 * slices and every endpoint of every slice refers to a Pod that is Running
 * and Ready. The verdict is kept in a status annotation; an invalid Service
 * also gets one warning event.
 */
module ServiceValidator {
  import opened Kube

  const ValidationLabel := "service-validator/enabled"
  const ValidationStatusAnnotation := "service-validator/status"
  const StatusValid := "valid"
  const StatusInvalid := "invalid"
  const ValidationAlertReason := "ServiceValidationAlert"
  const RequeueInterval := 30 * Second

  type Key = (string, string)

  datatype Service = Service(name: string, namespace: string, labels: StringMap, annotations: StringMap)

  datatype ObjectReference = ObjectReference(kind: string, namespace: string, name: string)

  /** An endpoint; `targetRef` is None when the endpoint names no object. */
  datatype Endpoint = Endpoint(targetRef: Option<ObjectReference>)

  datatype EndpointSlice = EndpointSlice(endpoints: seq<Endpoint>)

  datatype PodStatus = PodStatus(phase: string, conditions: seq<Condition>)

  /**
   * What the client would return: the endpoint slices labelled with each
   * Service's name (by namespace and name), whether that List fails, the
   * Pods, and the Pod keys whose Get fails with an error other than
   * not-found.
   */
  datatype Cluster = Cluster(
    endpointSlices: map<Key, seq<EndpointSlice>>,
    sliceListFails: bool,
    pods: map<Key, PodStatus>,
    podGetFails: set<Key>)

  datatype ValidationResult = ValidationResult(isValid: bool, serviceName: string, reason: string, details: seq<string>)

  /** ValidationResult.Error: empty for a valid result, else a message naming the Service, the reason and the details. */
  function ErrorText(r: ValidationResult): (e: string)
    ensures e == "" <==> r.isValid
    ensures !r.isValid ==> |e| >= 8 && e[..8] == "service "
    ensures !r.isValid && |r.details| == 0 ==> e == "service " + r.serviceName + " validation failed: " + r.reason
  {
    if r.isValid then ""
    else
      var head := "service " + r.serviceName + " validation failed: " + r.reason;
      if |r.details| > 0 then head + " - " + JoinWith(r.details, "; ") else head
  }

  /** shouldValidateService and hasValidationLabel: the label is present, whatever its value. */
  predicate ShouldValidateService(s: Service)
  {
    ValidationLabel in s.labels
  }

  /** hasValidationLabelChanged. */
  predicate HasValidationLabelChanged(old_: Service, new_: Service)
  {
    ShouldValidateService(old_) != ShouldValidateService(new_)
  }

  // ---------------------------------------------------------------------
  // validateTargetPod

  function Decimal(n: nat): string
  {
    NatToDecimal(n)
  }

  function PodFetch(c: Cluster, ref: ObjectReference): Fetch<PodStatus>
  {
    var key := (ref.namespace, ref.name);
    if key in c.podGetFails then FetchFailed
    else if key in c.pods then Found(c.pods[key])
    else NotFound
  }

  predicate IsReadyCondition(cond: Condition)
  {
    cond.condType == "Ready" && cond.status == "True"
  }

  predicate PodReady(p: PodStatus)
  {
    exists i :: 0 <= i < |p.conditions| && IsReadyCondition(p.conditions[i])
  }

  /** A target that passes: a Pod that can be read, Running, with a Ready condition whose status is True. */
  predicate TargetPodValid(c: Cluster, ref: ObjectReference)
  {
    ref.kind == "Pod" && PodFetch(c, ref).Found?
    && PodFetch(c, ref).value.phase == "Running" && PodReady(PodFetch(c, ref).value)
  }

  /** The complaints about a Pod that was read. */
  function PodIssues(name: string, p: PodStatus): (r: seq<string>)
    ensures |r| == 0 <==> p.phase == "Running" && PodReady(p)
  {
    (if p.phase != "Running" then ["pod " + name + " is not running (phase: " + p.phase + ")"] else [])
    + (if !PodReady(p) then ["pod " + name + " is not ready"] else [])
  }

  /** The result of validateTargetPod for endpoint `ei` of slice `si`. */
  function TargetPodResult(c: Cluster, ref: ObjectReference, si: nat, ei: nat): (r: ValidationResult)
    ensures r.isValid <==> TargetPodValid(c, ref)
    ensures r.serviceName == "" && r.details == []
    ensures ref.kind != "Pod" ==>
              r.reason == "slice " + Decimal(si) + " endpoint " + Decimal(ei) + " target is not a Pod (kind: " + ref.kind + ")"
    ensures ref.kind == "Pod" && PodFetch(c, ref).NotFound? ==>
              r.reason == "slice " + Decimal(si) + " endpoint " + Decimal(ei) + " target Pod " + ref.name + " not found"
  {
    var prefix := "slice " + Decimal(si) + " endpoint " + Decimal(ei);
    if ref.kind != "Pod" then ValidationResult(false, "", prefix + " target is not a Pod (kind: " + ref.kind + ")", [])
    else
      match PodFetch(c, ref)
      case NotFound => ValidationResult(false, "", prefix + " target Pod " + ref.name + " not found", [])
      case FetchFailed => ValidationResult(false, "", prefix + " failed to get target Pod " + ref.name, [])
      case Found(p) =>
        var issues := PodIssues(ref.name, p);
        if |issues| > 0 then ValidationResult(false, "", prefix + " validation failed: " + JoinWith(issues, "; "), [])
        else ValidationResult(true, "", "pod validation successful", [])
  }

  /** validateTargetPod, with the loop that looks for the Ready condition. */
  method ValidateTargetPod(c: Cluster, ref: ObjectReference, si: nat, ei: nat) returns (r: ValidationResult)
    ensures r == TargetPodResult(c, ref, si, ei)
  {
    var prefix := "slice " + Decimal(si) + " endpoint " + Decimal(ei);
    if ref.kind != "Pod" {
      return ValidationResult(false, "", prefix + " target is not a Pod (kind: " + ref.kind + ")", []);
    }
    var got := PodFetch(c, ref);
    if got.NotFound? {
      return ValidationResult(false, "", prefix + " target Pod " + ref.name + " not found", []);
    }
    if got.FetchFailed? {
      return ValidationResult(false, "", prefix + " failed to get target Pod " + ref.name, []);
    }
    var pod := got.value;
    var details: seq<string> := [];
    if pod.phase != "Running" {
      details := details + ["pod " + ref.name + " is not running (phase: " + pod.phase + ")"];
    }
    var ready := false;
    var i := 0;
    while i < |pod.conditions|
      invariant 0 <= i <= |pod.conditions|
      invariant forall k :: 0 <= k < i ==> !IsReadyCondition(pod.conditions[k])
      invariant !ready
    {
      if pod.conditions[i].condType == "Ready" && pod.conditions[i].status == "True" {
        ready := true;
        break;
      }
      i := i + 1;
    }
    assert ready <==> PodReady(pod);
    if !ready {
      details := details + ["pod " + ref.name + " is not ready"];
    }
    if |details| > 0 {
      return ValidationResult(false, "", prefix + " validation failed: " + JoinWith(details, "; "), []);
    }
    return ValidationResult(true, "", "pod validation successful", []);
  }

  // ---------------------------------------------------------------------
  // validateEndpointSlice

  /** An endpoint that passes: it has a target reference and the target validates. */
  predicate EndpointValid(c: Cluster, ep: Endpoint)
  {
    ep.targetRef.Some? && TargetPodValid(c, ep.targetRef.value)
  }

  /** The detail recorded for endpoint `j` of slice `si`, None when it passes. */
  function EndpointDetail(c: Cluster, ep: Endpoint, si: nat, j: nat): (d: Option<string>)
    ensures d.None? <==> EndpointValid(c, ep)
  {
    if ep.targetRef.None? then Some("slice " + Decimal(si) + " endpoint " + Decimal(j) + " has no target reference")
    else
      var pr := TargetPodResult(c, ep.targetRef.value, si, j);
      if pr.isValid then None else Some(ErrorText(pr))
  }

  /** The details collected over the endpoints of a slice, in order. */
  function EndpointDetails(c: Cluster, eps: seq<Endpoint>, si: nat): seq<string>
  {
    if |eps| == 0 then []
    else
      var prev := EndpointDetails(c, eps[..|eps| - 1], si);
      match EndpointDetail(c, eps[|eps| - 1], si, |eps| - 1)
      case None => prev
      case Some(d) => prev + [d]
  }

  /** No detail is collected exactly when every endpoint passes; there is at most one per endpoint. */
  lemma {:induction false} EndpointDetailsEmpty(c: Cluster, eps: seq<Endpoint>, si: nat)
    ensures |EndpointDetails(c, eps, si)| == 0 <==> forall j :: 0 <= j < |eps| ==> EndpointValid(c, eps[j])
    ensures |EndpointDetails(c, eps, si)| <= |eps|
  {
    if |eps| > 0 {
      var init := eps[..|eps| - 1];
      EndpointDetailsEmpty(c, init, si);
      assert forall j :: 0 <= j < |init| ==> init[j] == eps[j];
    }
  }

  /** Every endpoint is valid in a slice, and there is at least one. */
  predicate SliceValid(c: Cluster, slice: EndpointSlice)
  {
    |slice.endpoints| > 0 && forall j :: 0 <= j < |slice.endpoints| ==> EndpointValid(c, slice.endpoints[j])
  }

  /** The result of validateEndpointSlice for slice `si`. */
  function SliceResult(c: Cluster, slice: EndpointSlice, si: nat): (r: ValidationResult)
    ensures r.isValid <==> SliceValid(c, slice)
    ensures r.serviceName == "" && r.details == []
    ensures |slice.endpoints| == 0 ==> r.reason == "slice " + Decimal(si) + " has no endpoints"
  {
    EndpointDetailsEmpty(c, slice.endpoints, si);
    if |slice.endpoints| == 0 then ValidationResult(false, "", "slice " + Decimal(si) + " has no endpoints", [])
    else
      var details := EndpointDetails(c, slice.endpoints, si);
      if |details| > 0 then
        ValidationResult(false, "", "slice " + Decimal(si) + " validation failed: " + JoinWith(details, "; "), [])
      else ValidationResult(true, "", "slice validation successful", [])
  }

  /** validateEndpointSlice. */
  method ValidateEndpointSlice(c: Cluster, slice: EndpointSlice, si: nat) returns (r: ValidationResult)
    ensures r == SliceResult(c, slice, si)
  {
    if |slice.endpoints| == 0 {
      return ValidationResult(false, "", "slice " + Decimal(si) + " has no endpoints", []);
    }
    var details: seq<string> := [];
    var j := 0;
    while j < |slice.endpoints|
      invariant 0 <= j <= |slice.endpoints|
      invariant details == EndpointDetails(c, slice.endpoints[..j], si)
    {
      var ep := slice.endpoints[j];
      assert slice.endpoints[..j + 1][..j] == slice.endpoints[..j];
      if ep.targetRef.None? {
        details := details + ["slice " + Decimal(si) + " endpoint " + Decimal(j) + " has no target reference"];
      } else {
        var podResult := ValidateTargetPod(c, ep.targetRef.value, si, j);
        if !podResult.isValid {
          details := details + [ErrorText(podResult)];
        }
      }
      j := j + 1;
    }
    assert slice.endpoints[..j] == slice.endpoints;
    if |details| > 0 {
      return ValidationResult(false, "", "slice " + Decimal(si) + " validation failed: " + JoinWith(details, "; "), []);
    }
    return ValidationResult(true, "", "slice validation successful", []);
  }

  // ---------------------------------------------------------------------
  // validateServiceEndpoints

  /** The details collected over the slices: the error text of each invalid one, in order. */
  function SliceDetails(c: Cluster, slices: seq<EndpointSlice>): seq<string>
  {
    if |slices| == 0 then []
    else
      var prev := SliceDetails(c, slices[..|slices| - 1]);
      var sr := SliceResult(c, slices[|slices| - 1], |slices| - 1);
      if sr.isValid then prev else prev + [ErrorText(sr)]
  }

  /** One more slice adds its error text when it is invalid. */
  lemma SliceDetailsStep(c: Cluster, slices: seq<EndpointSlice>, i: nat)
    requires i < |slices|
    ensures SliceDetails(c, slices[..i + 1]) ==
              SliceDetails(c, slices[..i])
              + (if SliceResult(c, slices[i], i).isValid then [] else [ErrorText(SliceResult(c, slices[i], i))])
  {
    assert slices[..i + 1][..i] == slices[..i];
  }

  /** No detail is collected exactly when every slice is valid. */
  lemma {:induction false} SliceDetailsEmpty(c: Cluster, slices: seq<EndpointSlice>)
    ensures |SliceDetails(c, slices)| == 0 <==> forall i :: 0 <= i < |slices| ==> SliceValid(c, slices[i])
  {
    if |slices| > 0 {
      var init := slices[..|slices| - 1];
      SliceDetailsEmpty(c, init);
      assert forall i :: 0 <= i < |init| ==> init[i] == slices[i];
    }
  }

  /** The slices labelled with a Service's name, None when the List fails. */
  function SlicesOf(c: Cluster, s: Service): Option<seq<EndpointSlice>>
  {
    if c.sliceListFails then None
    else if (s.namespace, s.name) in c.endpointSlices then Some(c.endpointSlices[(s.namespace, s.name)])
    else Some([])
  }

  /** A Service passes: its slices can be listed, there is at least one, and every one is valid. */
  predicate ServiceValid(c: Cluster, s: Service)
  {
    SlicesOf(c, s).Some? && |SlicesOf(c, s).value| > 0
    && forall i :: 0 <= i < |SlicesOf(c, s).value| ==> SliceValid(c, SlicesOf(c, s).value[i])
  }

  /** The result of validateServiceEndpoints. */
  function ServiceResult(c: Cluster, s: Service): (r: ValidationResult)
    ensures r.isValid <==> ServiceValid(c, s)
    ensures r.serviceName == s.name
    ensures SlicesOf(c, s) == Some([]) ==> r.reason == "no endpoint slices found" && r.details == []
    ensures SlicesOf(c, s).Some? && !r.isValid ==>
              r.details == SliceDetails(c, SlicesOf(c, s).value)
  {
    match SlicesOf(c, s)
    case None => ValidationResult(false, s.name, "failed to get endpoint slices", ["endpoint slice list failed"])
    case Some(slices) =>
      SliceDetailsEmpty(c, slices);
      if |slices| == 0 then ValidationResult(false, s.name, "no endpoint slices found", [])
      else
        var details := SliceDetails(c, slices);
        if |details| > 0 then ValidationResult(false, s.name, "endpoint validation failed", details)
        else ValidationResult(true, s.name, "validation successful", [])
  }

  /** validateServiceEndpoints. */
  method ValidateServiceEndpoints(c: Cluster, s: Service) returns (r: ValidationResult)
    ensures r == ServiceResult(c, s)
  {
    var listed := SlicesOf(c, s);
    if listed.None? {
      return ValidationResult(false, s.name, "failed to get endpoint slices", ["endpoint slice list failed"]);
    }
    var slices := listed.value;
    if |slices| == 0 {
      return ValidationResult(false, s.name, "no endpoint slices found", []);
    }
    var details: seq<string> := [];
    var i := 0;
    while i < |slices|
      invariant 0 <= i <= |slices|
      invariant details == SliceDetails(c, slices[..i])
    {
      SliceDetailsStep(c, slices, i);
      var sliceResult := ValidateEndpointSlice(c, slices[i], i);
      if !sliceResult.isValid {
        details := details + [ErrorText(sliceResult)];
      }
      i := i + 1;
    }
    assert slices[..i] == slices;
    if |details| > 0 {
      return ValidationResult(false, s.name, "endpoint validation failed", details);
    }
    return ValidationResult(true, s.name, "validation successful", []);
  }

  /** One bad endpoint anywhere makes the whole Service invalid. */
  lemma OneBadEndpointInvalidates(c: Cluster, s: Service, i: nat, j: nat)
    requires SlicesOf(c, s).Some? && i < |SlicesOf(c, s).value|
    requires j < |SlicesOf(c, s).value[i].endpoints|
    requires !EndpointValid(c, SlicesOf(c, s).value[i].endpoints[j])
    ensures !ServiceResult(c, s).isValid
    ensures ErrorText(ServiceResult(c, s)) != ""
  {
  }

  // ---------------------------------------------------------------------
  // updateServiceValidationStatus

  /** getValidationStatus: the status annotation, "" when missing. */
  function ValidationStatus(s: Service): string
  {
    Lookup(s.annotations, ValidationStatusAnnotation)
  }

  function DesiredStatus(r: ValidationResult): string
  {
    if r.isValid then StatusValid else StatusInvalid
  }

  /** The annotations updateServiceValidationStatus writes, or None when the status already matches. */
  function StatusAnnotations(annotations: StringMap, r: ValidationResult): Option<StringMap>
  {
    if Lookup(annotations, ValidationStatusAnnotation) == DesiredStatus(r) then None
    else Some(annotations[ValidationStatusAnnotation := DesiredStatus(r)])
  }

  /**
   * Nothing is written exactly when the status already matches; a write sets
   * "valid" or "invalid" as the result says and keeps every other
   * annotation, after which the same result writes nothing.
   */
  lemma StatusAnnotationsFacts(s: Service, r: ValidationResult)
    ensures StatusAnnotations(s.annotations, r).None? <==>
              (r.isValid && ValidationStatus(s) == StatusValid) || (!r.isValid && ValidationStatus(s) == StatusInvalid)
    ensures StatusAnnotations(s.annotations, r).Some? ==>
              var w := StatusAnnotations(s.annotations, r).value;
              && w.Keys == s.annotations.Keys + {ValidationStatusAnnotation}
              && w[ValidationStatusAnnotation] == (if r.isValid then StatusValid else StatusInvalid)
              && (forall k :: k in s.annotations && k != ValidationStatusAnnotation ==> w[k] == s.annotations[k])
              && StatusAnnotations(w, r).None?
  {
  }

  /** The key of the validation-alert event of a Service. */
  function AlertKey(s: Service): (k: Key)
    ensures k.0 == s.namespace
  {
    (s.namespace, s.name + "-validation-alert")
  }

  datatype ReconcileResult = Requeue(after: int) | Done | ReconcileError

  /** The controller over a cluster snapshot and the validation-alert events that exist. */
  class ServiceValidatorReconciler {
    const cluster: Cluster
    var alerts: set<Key>

    constructor (cluster: Cluster)
      ensures this.cluster == cluster && alerts == {}
    {
      this.cluster := cluster;
      alerts := {};
    }

    /** createValidationEvent: an existing alert is kept; otherwise one is created when Create succeeds. */
    method CreateValidationEvent(s: Service, createOk: bool) returns (err: bool)
      modifies this
      ensures err <==> AlertKey(s) !in old(alerts) && !createOk
      ensures alerts == if createOk then old(alerts) + {AlertKey(s)} else old(alerts)
    {
      var key := AlertKey(s);
      if key in alerts {
        return false;
      }
      if !createOk {
        return true;
      }
      alerts := alerts + {key};
      return false;
    }

    /**
     * updateServiceValidationStatus: only an invalid verdict raises an
     * event, and its failure stops the update; `written` is the Service the
     * successful Update stored.
     */
    method UpdateServiceValidationStatus(s: Service, r: ValidationResult, createOk: bool, updateOk: bool)
      returns (updated: bool, err: bool, written: Option<Service>)
      modifies this
      ensures var w := StatusAnnotations(s.annotations, r);
              && (w.None? ==> !updated && !err && written.None? && alerts == old(alerts))
              && (w.Some? ==>
                    && alerts == (if !r.isValid && createOk then old(alerts) + {AlertKey(s)} else old(alerts))
                    && var eventFails := !r.isValid && AlertKey(s) !in old(alerts) && !createOk;
                       && (updated <==> !eventFails)
                       && (err <==> eventFails || !updateOk)
                       && (written.Some? <==> !eventFails && updateOk)
                       && (written.Some? ==> written.value == s.(annotations := w.value)))
    {
      var currentStatus := Lookup(s.annotations, ValidationStatusAnnotation);
      var needsUpdate := (r.isValid && currentStatus != StatusValid) || (!r.isValid && currentStatus != StatusInvalid);
      if !needsUpdate {
        return false, false, None;
      }
      var copy := s.annotations;
      if r.isValid {
        copy := copy[ValidationStatusAnnotation := StatusValid];
      } else {
        copy := copy[ValidationStatusAnnotation := StatusInvalid];
        var eventErr := CreateValidationEvent(s, createOk);
        if eventErr {
          return false, true, None;
        }
      }
      if !updateOk {
        return true, true, None;
      }
      return true, false, Some(s.(annotations := copy));
    }

    /**
     * Reconcile. `got` is the Service read; the flags say whether event
     * Create and Update succeed. Only labelled Services are validated, and a
     * stored verdict is the one validateServiceEndpoints gives.
     */
    method Reconcile(got: Fetch<Service>, createOk: bool, updateOk: bool)
      returns (res: ReconcileResult, written: Option<Service>)
      modifies this
      ensures got.NotFound? ==> res == Done && written.None? && alerts == old(alerts)
      ensures got.FetchFailed? ==> res == ReconcileError && written.None? && alerts == old(alerts)
      ensures got.Found? && !ShouldValidateService(got.value) ==> res == Done && written.None? && alerts == old(alerts)
      ensures got.Found? && ShouldValidateService(got.value) ==>
                var s := got.value;
                var valid := ServiceValid(cluster, s);
                var desired := if valid then StatusValid else StatusInvalid;
                var eventFails := !valid && AlertKey(s) !in old(alerts) && !createOk;
                if ValidationStatus(s) == desired then
                  res == Requeue(RequeueInterval) && written.None? && alerts == old(alerts)
                else
                  && alerts == (if !valid && createOk then old(alerts) + {AlertKey(s)} else old(alerts))
                  && (written.Some? <==> !eventFails && updateOk)
                  && (written.Some? ==> written.value == s.(annotations := s.annotations[ValidationStatusAnnotation := desired]))
                  && res == (if eventFails || !updateOk then ReconcileError else Requeue(RequeueInterval))
      ensures written.Some? ==>
                && got.Found? && ShouldValidateService(got.value)
                && (ValidationStatus(written.value) == StatusValid <==> ServiceValid(cluster, got.value))
                && (ValidationStatus(written.value) == StatusInvalid <==> !ServiceValid(cluster, got.value))
                && res == Requeue(RequeueInterval)
      ensures alerts != old(alerts) ==> got.Found? && !ServiceValid(cluster, got.value) && alerts == old(alerts) + {AlertKey(got.value)}
    {
      match got {
        case NotFound => return Done, None;
        case FetchFailed => return ReconcileError, None;
        case Found(s) =>
          if !ShouldValidateService(s) {
            return Done, None;
          }
          var result := ValidateServiceEndpoints(cluster, s);
          StatusAnnotationsFacts(s, result);
          var updated, err;
          updated, err, written := UpdateServiceValidationStatus(s, result, createOk, updateOk);
          if err {
            return ReconcileError, written;
          }
          return Requeue(RequeueInterval), written;
      }
    }
  }
}
