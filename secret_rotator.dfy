/**
 * The secret rotator: a Secret carrying the rotation label is compared, once
 * a day, with its rotation threshold (days, from an annotation, 90 by
 * default). The result is kept in two annotations: the time of the last check
 * and a "needs rotation" marker; a Secret newly marked gets one warning event.
 */
module SecretRotator {
  import opened Kube

  const RotationLabel := "secret-rotator/enabled"
  const RotationThresholdAnnotation := "secret-rotator/rotation-threshold-days"
  const LastRotationCheckAnnotation := "secret-rotator/last-check"
  const NeedsRotationAnnotation := "secret-rotator/needs-rotation"
  const TestAgeAnnotation := "secret-rotator/test-age-days"
  const DefaultRotationThreshold := 90
  const RotationAlertReason := "SecretRotationAlert"

  const Day := 24 * Hour
  /** The largest number of days whose duration fits in an int64 of nanoseconds. */
  const MaxDays := 106751

  /** `created` is the creation time, in nanoseconds on the same clock as `now` below. */
  datatype Secret = Secret(
    name: string,
    namespace: string,
    labels: StringMap,
    annotations: StringMap,
    created: int)

  type Key = (string, string)

  function KeyOf(s: Secret): Key
  {
    (s.namespace, s.name)
  }

  // ---------------------------------------------------------------------
  // Labels and annotations

  /** shouldMonitorSecret and hasRotationLabel: the label is present, whatever its value. */
  predicate ShouldMonitorSecret(s: Secret)
  {
    RotationLabel in s.labels
  }

  /** hasRotationLabelChanged. */
  predicate HasRotationLabelChanged(old_: Secret, new_: Secret)
  {
    ShouldMonitorSecret(old_) != ShouldMonitorSecret(new_)
  }

  /** getRotationThreshold: the annotation read by Atoi, 90 when missing or unreadable. */
  function GetRotationThreshold(s: Secret): (r: int)
    ensures MinInt64 <= r <= MaxInt64
    ensures RotationThresholdAnnotation !in s.annotations ==> r == DefaultRotationThreshold
  {
    if RotationThresholdAnnotation !in s.annotations then DefaultRotationThreshold
    else
      match Atoi(s.annotations[RotationThresholdAnnotation])
      case None => DefaultRotationThreshold
      case Some(v) => v
  }

  /** A threshold written in decimal is the one read back. */
  lemma ThresholdReadsAnnotation(s: Secret, days: nat)
    requires days <= MaxInt64
    ensures GetRotationThreshold(s.(annotations := s.annotations[RotationThresholdAnnotation := NatToDecimal(days)])) == days
  {
    AtoiReadsDecimal(days);
  }

  /** An unreadable threshold counts as the default. */
  lemma UnreadableThresholdIsDefault(s: Secret)
    requires RotationThresholdAnnotation in s.annotations
    requires !AtoiSyntax(s.annotations[RotationThresholdAnnotation])
    ensures GetRotationThreshold(s) == DefaultRotationThreshold
  {
  }

  /** hasRotationThresholdChanged: the effective thresholds differ. */
  predicate HasRotationThresholdChanged(old_: Secret, new_: Secret)
  {
    GetRotationThreshold(old_) != GetRotationThreshold(new_)
  }

  /**
   * Replacing an unreadable threshold by "90", or by another unreadable text,
   * is not a change; neither is adding "90" where there was none.
   */
  lemma ThresholdChangeIsEffective(s: Secret)
    requires RotationThresholdAnnotation !in s.annotations
    ensures !HasRotationThresholdChanged(s, s.(annotations := s.annotations[RotationThresholdAnnotation := "90"]))
    ensures !HasRotationThresholdChanged(
              s.(annotations := s.annotations[RotationThresholdAnnotation := "abc"]),
              s.(annotations := s.annotations[RotationThresholdAnnotation := "90"]))
    ensures !HasRotationThresholdChanged(
              s.(annotations := s.annotations[RotationThresholdAnnotation := "abc"]),
              s.(annotations := s.annotations[RotationThresholdAnnotation := "x1"]))
    ensures HasRotationThresholdChanged(s, s.(annotations := s.annotations[RotationThresholdAnnotation := "30"]))
  {
    assert !AtoiSyntax("abc") by { assert !IsDigit('a'); }
    assert !AtoiSyntax("x1") by { assert !IsDigit('x'); }
    AtoiReadsDecimal(90);
    assert NatToDecimal(90) == "90";
    AtoiReadsDecimal(30);
    assert NatToDecimal(30) == "30";
  }

  /**
   * Adding a threshold where there was none is a change exactly when Atoi
   * accepts the text and reads something other than 90 days.
   */
  lemma ThresholdAddedChanges(s: Secret, text: string)
    requires RotationThresholdAnnotation !in s.annotations
    ensures var added := s.(annotations := s.annotations[RotationThresholdAnnotation := text]);
              HasRotationThresholdChanged(s, added) <==> Atoi(text).Some? && Atoi(text).value != DefaultRotationThreshold
    ensures !AtoiSyntax(text) ==>
              !HasRotationThresholdChanged(s, s.(annotations := s.annotations[RotationThresholdAnnotation := text]))
  {
  }

  /** Adding a decimal threshold in the int64 range is a change exactly when it is not 90. */
  lemma DecimalThresholdAddedChanges(s: Secret, days: nat)
    requires RotationThresholdAnnotation !in s.annotations
    requires days <= MaxInt64
    ensures var added := s.(annotations := s.annotations[RotationThresholdAnnotation := NatToDecimal(days)]);
              HasRotationThresholdChanged(s, added) <==> days != DefaultRotationThreshold
  {
    ThresholdReadsAnnotation(s, days);
  }

  // ---------------------------------------------------------------------
  // checkSecretRotation

  /** time.Duration(days) * 24 * time.Hour, with int64 wrap-around. */
  function DaysToDuration(days: int): (r: int)
    ensures MinInt64 <= r <= MaxInt64
    ensures -MaxDays <= days <= MaxDays ==> r == days * Day
  {
    ToInt64(days * Day)
  }

  /** A threshold one day past the int64 range wraps to a negative duration. */
  lemma HugeThresholdWraps()
    ensures DaysToDuration(MaxDays + 1) < 0
  {
  }

  /** time.Since: the difference of two instants, saturated to the int64 range. */
  function Since(now: int, created: int): (r: int)
    ensures MinInt64 <= r <= MaxInt64
    ensures MinInt64 <= now - created <= MaxInt64 ==> r == now - created
  {
    if now - created > MaxInt64 then MaxInt64
    else if now - created < MinInt64 then MinInt64
    else now - created
  }

  /** calculateTestAge: the test-age annotation in days, one day when missing or unreadable. */
  function CalculateTestAge(s: Secret): (r: int)
    ensures TestAgeAnnotation !in s.annotations ==> r == Day
    ensures TestAgeAnnotation in s.annotations && Atoi(s.annotations[TestAgeAnnotation]).Some? ==>
              r == DaysToDuration(Atoi(s.annotations[TestAgeAnnotation]).value)
  {
    if TestAgeAnnotation in s.annotations && Atoi(s.annotations[TestAgeAnnotation]).Some? then
      DaysToDuration(Atoi(s.annotations[TestAgeAnnotation]).value)
    else Day
  }

  /** The age of a secret: simulated in test mode, the time since creation otherwise. */
  function SecretAge(s: Secret, testMode: bool, now: int): int
  {
    if testMode then CalculateTestAge(s) else Since(now, s.created)
  }

  /** checkSecretRotation: (needs rotation, age, threshold), all durations in nanoseconds. */
  function CheckSecretRotation(s: Secret, testMode: bool, now: int): (r: (bool, int, int))
    ensures r.2 == DaysToDuration(GetRotationThreshold(s))
    ensures r.1 == SecretAge(s, testMode, now)
    ensures r.0 <==> r.1 > r.2
  {
    var threshold := DaysToDuration(GetRotationThreshold(s));
    var age := SecretAge(s, testMode, now);
    (age > threshold, age, threshold)
  }

  /**
   * For a threshold of at most MaxDays days and an age in range, a secret
   * needs rotation exactly when it is strictly older than the threshold;
   * a secret without a threshold annotation is due after 90 days.
   */
  lemma RotationDueAfterThreshold(s: Secret, now: int)
    requires 0 <= GetRotationThreshold(s) <= MaxDays
    requires MinInt64 <= now - s.created <= MaxInt64
    ensures CheckSecretRotation(s, false, now).0 <==> now - s.created > GetRotationThreshold(s) * Day
    ensures RotationThresholdAnnotation !in s.annotations ==>
              (CheckSecretRotation(s, false, now).0 <==> now - s.created > 90 * Day)
  {
  }

  /** In test mode an unannotated secret is one day old, so it is never due under the default threshold. */
  lemma TestModeDefaultAge(s: Secret, now: int)
    requires TestAgeAnnotation !in s.annotations && RotationThresholdAnnotation !in s.annotations
    ensures !CheckSecretRotation(s, true, now).0
  {
  }

  // ---------------------------------------------------------------------
  // batchUpdateSecret

  /** The marker as batchUpdateSecret reads it: only the text "true" counts. */
  predicate CurrentlyFlagged(annotations: StringMap)
  {
    Lookup(annotations, NeedsRotationAnnotation) == "true"
  }

  /**
   * The annotations batchUpdateSecret hands to Update, or None when it
   * writes nothing; `stamp` is the formatted current time.
   */
  function NewAnnotations(annotations: StringMap, needs: bool, stamp: string): (r: Option<StringMap>)
  {
    if CurrentlyFlagged(annotations) == needs then
      if Lookup(annotations, LastRotationCheckAnnotation) == "" then Some(annotations[LastRotationCheckAnnotation := stamp])
      else None
    else
      var stamped := annotations[LastRotationCheckAnnotation := stamp];
      if needs then Some(stamped[NeedsRotationAnnotation := "true"])
      else Some(stamped - {NeedsRotationAnnotation})
  }

  /**
   * Nothing is written exactly when the marker already agrees and a check
   * time is recorded; any write records `stamp`, leaves the marker agreeing
   * with `needs`, and keeps every other annotation.
   */
  lemma NewAnnotationsFacts(annotations: StringMap, needs: bool, stamp: string)
    ensures NewAnnotations(annotations, needs, stamp).None? <==>
              CurrentlyFlagged(annotations) == needs && Lookup(annotations, LastRotationCheckAnnotation) != ""
    ensures NewAnnotations(annotations, needs, stamp).Some? ==>
              var w := NewAnnotations(annotations, needs, stamp).value;
              && LastRotationCheckAnnotation in w && w[LastRotationCheckAnnotation] == stamp
              && CurrentlyFlagged(w) == needs
              && (forall k :: k != LastRotationCheckAnnotation && k != NeedsRotationAnnotation ==>
                    (k in w <==> k in annotations) && (k in w ==> w[k] == annotations[k]))
    ensures NewAnnotations(annotations, needs, stamp).Some? && CurrentlyFlagged(annotations) == needs ==>
              NewAnnotations(annotations, needs, stamp).value == annotations[LastRotationCheckAnnotation := stamp]
  {
  }

  /** Once written with a non-empty time stamp, the annotations are left alone by the next check with the same outcome. */
  lemma NewAnnotationsSettle(annotations: StringMap, needs: bool, stamp: string, later: string)
    requires stamp != ""
    requires NewAnnotations(annotations, needs, stamp).Some?
    ensures NewAnnotations(NewAnnotations(annotations, needs, stamp).value, needs, later).None?
  {
    NewAnnotationsFacts(annotations, needs, stamp);
  }

  /** An update made while the marker disagrees is the only path that raises an alert. */
  predicate RaisesAlert(annotations: StringMap, needs: bool)
  {
    needs && !CurrentlyFlagged(annotations)
  }

  /** The key of the rotation-alert event of a secret. */
  function AlertKey(s: Secret): (k: Key)
    ensures k.0 == s.namespace
  {
    (s.namespace, s.name + "-rotation-alert")
  }

  /** A Secret flagged on a failed check with a recorded time is not touched again. */
  lemma FlaggedSecretStaysQuiet(annotations: StringMap, stamp: string)
    requires CurrentlyFlagged(annotations) && Lookup(annotations, LastRotationCheckAnnotation) != ""
    ensures NewAnnotations(annotations, true, stamp).None?
    ensures !RaisesAlert(annotations, true)
  {
  }

  datatype ReconcileResult = Requeue(after: int) | Done | ReconcileError

  const CheckInterval := 24 * Hour

  /**
   * The controller over a store of Secrets and the rotation-alert events
   * that exist. Calls that may fail are given as flags.
   */
  class SecretRotatorReconciler {
    var secrets: map<Key, Secret>
    var alerts: set<Key>
    /** Whether TEST_MODE is "true" in the environment. */
    const testMode: bool

    constructor (secrets: map<Key, Secret>, testMode: bool)
      ensures this.secrets == secrets && alerts == {} && this.testMode == testMode
    {
      this.secrets := secrets;
      this.alerts := {};
      this.testMode := testMode;
    }

    /** createRotationEvent: an existing alert is kept; otherwise one is created when Create succeeds. */
    method CreateRotationEvent(secret: Secret, createOk: bool) returns (err: bool)
      modifies this
      ensures secrets == old(secrets)
      ensures err <==> AlertKey(secret) !in old(alerts) && !createOk
      ensures alerts == if createOk then old(alerts) + {AlertKey(secret)} else old(alerts)
    {
      var key := AlertKey(secret);
      if key in alerts {
        return false;
      }
      if !createOk {
        return true;
      }
      alerts := alerts + {key};
      return false;
    }

    /** batchUpdateSecret: (whether an update was attempted and not undone, whether an error came back). */
    method BatchUpdateSecret(secret: Secret, needs: bool, stamp: string, updateOk: bool, createOk: bool)
      returns (updated: bool, err: bool)
      modifies this
      ensures var w := NewAnnotations(secret.annotations, needs, stamp);
              && (updated <==> w.Some? && (updateOk || !RaisesAlert(secret.annotations, needs)))
              && (err <==> w.Some? && (!updateOk
                                       || (RaisesAlert(secret.annotations, needs) && AlertKey(secret) !in old(alerts) && !createOk)))
              && secrets == (if w.Some? && updateOk then old(secrets)[KeyOf(secret) := secret.(annotations := w.value)] else old(secrets))
              && alerts == (if RaisesAlert(secret.annotations, needs) && updateOk && createOk
                            then old(alerts) + {AlertKey(secret)} else old(alerts))
    {
      var current := Lookup(secret.annotations, NeedsRotationAnnotation) == "true";
      if current == needs {
        if Lookup(secret.annotations, LastRotationCheckAnnotation) == "" {
          var copy := secret.annotations[LastRotationCheckAnnotation := stamp];
          if updateOk {
            secrets := secrets[KeyOf(secret) := secret.(annotations := copy)];
          }
          return true, !updateOk;
        }
        return false, false;
      }
      var copy := secret.annotations;
      copy := copy[LastRotationCheckAnnotation := stamp];
      if needs {
        copy := copy[NeedsRotationAnnotation := "true"];
        if !updateOk {
          return false, true;
        }
        secrets := secrets[KeyOf(secret) := secret.(annotations := copy)];
        err := CreateRotationEvent(secret, createOk);
        return true, err;
      } else {
        if NeedsRotationAnnotation in copy {
          copy := copy - {NeedsRotationAnnotation};
        }
        assert copy == secret.annotations[LastRotationCheckAnnotation := stamp] - {NeedsRotationAnnotation};
        if updateOk {
          secrets := secrets[KeyOf(secret) := secret.(annotations := copy)];
        }
        return true, !updateOk;
      }
    }

    /**
     * Reconcile of the Secret at `key`. `readFails`: the Get fails with an
     * error other than not-found; `now` is the clock and `stamp` its RFC 3339
     * text. A checked Secret is requeued after a day, with its marker in
     * agreement with the check and a check time recorded.
     */
    method Reconcile(key: Key, readFails: bool, now: int, stamp: string, updateOk: bool, createOk: bool)
      returns (res: ReconcileResult)
      requires stamp != ""
      modifies this
      ensures readFails ==> res == ReconcileError && secrets == old(secrets) && alerts == old(alerts)
      ensures !readFails && (key !in old(secrets) || !ShouldMonitorSecret(old(secrets)[key])) ==>
                res == Done && secrets == old(secrets) && alerts == old(alerts)
      ensures !readFails && key in old(secrets) && ShouldMonitorSecret(old(secrets)[key]) ==>
                var s := old(secrets)[key];
                var needs := CheckSecretRotation(s, testMode, now).0;
                var w := NewAnnotations(s.annotations, needs, stamp);
                && res == (if w.Some? && (!updateOk || (RaisesAlert(s.annotations, needs) && AlertKey(s) !in old(alerts) && !createOk))
                           then ReconcileError else Requeue(CheckInterval))
                && secrets == (if w.Some? && updateOk then old(secrets)[KeyOf(s) := s.(annotations := w.value)] else old(secrets))
                && alerts == (if RaisesAlert(s.annotations, needs) && updateOk && createOk
                              then old(alerts) + {AlertKey(s)} else old(alerts))
      ensures res.Requeue? ==>
                (res.after == CheckInterval
                 && key in old(secrets) && ShouldMonitorSecret(old(secrets)[key])
                 && (KeyOf(old(secrets)[key]) == key ==>
                       && key in secrets
                       && CurrentlyFlagged(secrets[key].annotations) == CheckSecretRotation(old(secrets)[key], testMode, now).0
                       && Lookup(secrets[key].annotations, LastRotationCheckAnnotation) != ""))
    {
      if readFails {
        return ReconcileError;
      }
      if key !in secrets {
        return Done;
      }
      var secret := secrets[key];
      if !ShouldMonitorSecret(secret) {
        return Done;
      }
      var check := CheckSecretRotation(secret, testMode, now);
      NewAnnotationsFacts(secret.annotations, check.0, stamp);
      var updated, err := BatchUpdateSecret(secret, check.0, stamp, updateOk, createOk);
      if err {
        return ReconcileError;
      }
      return Requeue(CheckInterval);
    }
  }
}
