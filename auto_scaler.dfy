/**
 * The auto-scaler: a ready, labelled Deployment outside the system
 * namespaces is scaled one replica up when its CPU usage is above 60% and one
 * down when it is below 40%, within 1 to 10 replicas, and not again until
 * 20 seconds have passed since its last scaling.
 */
module AutoScaler {
  import opened Kube

  const AutoScaleLabel := "auto-scaler/enabled"
  const CpuThresholdHigh: real := 60.0
  const CpuThresholdLow: real := 40.0
  const MinReplicas := 1
  const MaxReplicas := 10
  const ScalingCooldown := 20 * Second

  /** The part of a Deployment the controller reads: its desired and its ready replica counts. */
  datatype Deployment = Deployment(
    name: string,
    namespace: string,
    labels: StringMap,
    replicas: int,
    readyReplicas: int)

  /** hasAutoScaleLabel: the label is present, whatever its value. */
  predicate HasAutoScaleLabel(d: Deployment)
  {
    AutoScaleLabel in d.labels
  }

  /** isDeploymentReady: at least one ready replica. */
  predicate IsDeploymentReady(d: Deployment)
  {
    d.readyReplicas != 0
  }

  // ---------------------------------------------------------------------
  // shouldScale

  /** The scaling decision of shouldScale: whether to scale, and the replica count it asks for. */
  function ScaleDecision(replicas: int, cpu: real): (r: (bool, int))
    ensures r.0 <==> (cpu > CpuThresholdHigh && replicas < MaxReplicas) || (cpu < CpuThresholdLow && replicas > MinReplicas)
    ensures !r.0 ==> r.1 == replicas
  {
    if cpu > CpuThresholdHigh && replicas < MaxReplicas then (true, replicas + 1)
    else if cpu < CpuThresholdLow && replicas > MinReplicas then (true, replicas - 1)
    else (false, replicas)
  }

  /**
   * High usage adds one replica and low usage removes one; from any count in
   * 1..10 the new count stays in 1..10 and differs by at most one.
   */
  lemma ScaleDecisionBounded(replicas: int, cpu: real)
    requires MinReplicas <= replicas <= MaxReplicas
    ensures MinReplicas <= ScaleDecision(replicas, cpu).1 <= MaxReplicas
    ensures ScaleDecision(replicas, cpu).0 ==> cpu > CpuThresholdHigh ==> ScaleDecision(replicas, cpu).1 == replicas + 1
    ensures ScaleDecision(replicas, cpu).0 ==> cpu < CpuThresholdLow ==> ScaleDecision(replicas, cpu).1 == replicas - 1
    ensures ScaleDecision(replicas, cpu).0 ==> ScaleDecision(replicas, cpu).1 != replicas
  {
  }

  /** Usage between the two thresholds never scales; a count outside 1..10 is only moved towards it. */
  lemma ScaleDecisionHysteresis(replicas: int, cpu: real)
    ensures CpuThresholdLow <= cpu <= CpuThresholdHigh ==> !ScaleDecision(replicas, cpu).0
    ensures replicas > MaxReplicas && ScaleDecision(replicas, cpu).0 ==> ScaleDecision(replicas, cpu).1 == replicas - 1
    ensures replicas < MinReplicas && ScaleDecision(replicas, cpu).0 ==> ScaleDecision(replicas, cpu).1 == replicas + 1
  {
  }

  // ---------------------------------------------------------------------
  // Cooldown

  /** isInCooldown, given the clock: a scaling recorded less than 20 seconds ago. */
  predicate InCooldown(cache: map<string, int>, name: string, now: int)
  {
    name in cache && now - cache[name] < ScalingCooldown
  }

  /** After a scaling at `now`, the Deployment is in cooldown for exactly the next 20 seconds. */
  lemma CooldownLasts(cache: map<string, int>, name: string, now: int, later: int)
    requires now <= later
    ensures InCooldown(cache[name := now], name, later) <==> later < now + ScalingCooldown
    ensures forall other :: other != name ==> (InCooldown(cache[name := now], other, later) <==> InCooldown(cache, other, later))
  {
  }

  datatype ReconcileResult = Requeue(after: int) | Done | ReconcileError

  /** The controller and its cooldown cache (the time of the last scaling per Deployment name). */
  class DeploymentReconciler {
    var cooldownCache: map<string, int>

    constructor ()
      ensures cooldownCache == map[]
    {
      cooldownCache := map[];
    }

    /** isInCooldown. */
    method IsInCooldown(name: string, now: int) returns (b: bool)
      ensures b == InCooldown(cooldownCache, name, now)
    {
      if name !in cooldownCache {
        return false;
      }
      var lastScale := cooldownCache[name];
      return now - lastScale < ScalingCooldown;
    }

    /** setCoolDown. */
    method SetCoolDown(name: string, now: int)
      modifies this
      ensures cooldownCache == old(cooldownCache)[name := now]
    {
      cooldownCache := cooldownCache[name := now];
    }

    /** shouldScale: decides, and records a cooldown exactly when it decides to scale. */
    method ShouldScale(d: Deployment, cpu: real, now: int) returns (scale: bool, newReplicas: int)
      modifies this
      ensures (scale, newReplicas) == ScaleDecision(d.replicas, cpu)
      ensures cooldownCache == if scale then old(cooldownCache)[d.name := now] else old(cooldownCache)
    {
      var current := d.replicas;
      if cpu > CpuThresholdHigh && current < MaxReplicas {
        SetCoolDown(d.name, now);
        return true, current + 1;
      }
      if cpu < CpuThresholdLow && current > MinReplicas {
        SetCoolDown(d.name, now);
        return true, current - 1;
      }
      return false, current;
    }

    /**
     * Reconcile. `got` is the Deployment read; `cpu` is the usage sampled
     * (read only once the cooldown has been checked); `updateOk` is whether
     * Update succeeds. `written` is the Deployment handed to Update.
     */
    method Reconcile(namespace: string, got: Fetch<Deployment>, cpu: real, now: int, updateOk: bool)
      returns (res: ReconcileResult, written: Option<Deployment>)
      modifies this
      ensures IsSystemNamespace(namespace) ==> res == Done && written.None? && cooldownCache == old(cooldownCache)
      ensures !IsSystemNamespace(namespace) && got.NotFound? ==> res == Done && written.None?
      ensures !IsSystemNamespace(namespace) && got.FetchFailed? ==> res == ReconcileError && written.None?
      ensures !IsSystemNamespace(namespace) && got.Found? && !HasAutoScaleLabel(got.value) ==> res == Done && written.None?
      ensures !IsSystemNamespace(namespace) && got.Found? && HasAutoScaleLabel(got.value)
              && (!IsDeploymentReady(got.value) || InCooldown(old(cooldownCache), got.value.name, now)) ==>
                res == Requeue(ScalingCooldown) && written.None? && cooldownCache == old(cooldownCache)
      ensures !IsSystemNamespace(namespace) && got.Found? && HasAutoScaleLabel(got.value)
              && IsDeploymentReady(got.value) && !InCooldown(old(cooldownCache), got.value.name, now)
              && !ScaleDecision(got.value.replicas, cpu).0 ==>
                res == Requeue(ScalingCooldown) && written.None? && cooldownCache == old(cooldownCache)
      ensures written.Some? <==>
                && !IsSystemNamespace(namespace) && got.Found? && HasAutoScaleLabel(got.value)
                && IsDeploymentReady(got.value) && !InCooldown(old(cooldownCache), got.value.name, now)
                && ScaleDecision(got.value.replicas, cpu).0
      ensures written.Some? ==>
                && written.value == got.value.(replicas := ScaleDecision(got.value.replicas, cpu).1)
                && cooldownCache == old(cooldownCache)[got.value.name := now]
                && res == (if updateOk then Requeue(ScalingCooldown) else ReconcileError)
      ensures written.None? ==> cooldownCache == old(cooldownCache) && (res == ReconcileError <==> got.FetchFailed? && !IsSystemNamespace(namespace))
    {
      if IsSystemNamespace(namespace) {
        return Done, None;
      }
      match got {
        case NotFound => return Done, None;
        case FetchFailed => return ReconcileError, None;
        case Found(d) =>
          if !HasAutoScaleLabel(d) {
            return Done, None;
          }
          if !IsDeploymentReady(d) {
            return Requeue(ScalingCooldown), None;
          }
          var cooling := IsInCooldown(d.name, now);
          if cooling {
            return Requeue(ScalingCooldown), None;
          }
          var scale, newReplicas := ShouldScale(d, cpu, now);
          if !scale {
            return Requeue(ScalingCooldown), None;
          }
          written := Some(d.(replicas := newReplicas));
          res := if updateOk then Requeue(ScalingCooldown) else ReconcileError;
      }
    }
  }
}
