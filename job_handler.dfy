/**
 * The job handler: a labelled Job that has finished (a completion time, or a
 * Failed condition that is True) is processed once. A successful Job gets its
 * logs stored in a "<name>-results" ConfigMap, is annotated "completed" and is
 * then deleted; any other finished Job is annotated "failed" and kept.
 */
module JobHandler {
  import opened Kube

  const HandlerLabel := "job-handler/enabled"
  const ProcessingStatusAnnotation := "job-handler/status"
  const StatusPending := "pending"
  const StatusCompleted := "completed"
  const StatusFailed := "failed"
  const JobProcessingReason := "JobProcessing"
  const RequeueInterval := 300 * Second
  const NotCompletedRequeue := 30 * Second

  /** `completionTime` is None while the Job has not completed successfully. */
  datatype Job = Job(
    name: string,
    namespace: string,
    labels: StringMap,
    annotations: StringMap,
    completionTime: Option<string>,
    conditions: seq<Condition>)

  type Key = (string, string)

  datatype JobProcessingResult = JobProcessingResult(
    isCompleted: bool,
    jobName: string,
    reason: string,
    errors: seq<string>,
    logs: string,
    configMapName: string,
    shouldDelete: bool)

  // ---------------------------------------------------------------------
  // JobProcessingResult.Error

  /** JobProcessingResult.Error: empty for a completed result, else a message naming the Job, the reason and the errors. */
  function ErrorText(r: JobProcessingResult): (e: string)
    ensures e == "" <==> r.isCompleted
    ensures !r.isCompleted ==> |e| >= 4 && e[..4] == "job "
    ensures !r.isCompleted && |r.errors| == 0 ==> e == "job " + r.jobName + " processing failed: " + r.reason
  {
    if r.isCompleted then ""
    else
      var head := "job " + r.jobName + " processing failed: " + r.reason;
      if |r.errors| > 0 then head + " - " + JoinWith(r.errors, "; ") else head
  }

  // ---------------------------------------------------------------------
  // Predicates on a Job

  /** shouldHandleJob and hasHandlerLabel: the label is present, whatever its value. */
  predicate ShouldHandleJob(j: Job)
  {
    HandlerLabel in j.labels
  }

  /** getProcessingStatus: the status annotation, "" when missing. */
  function ProcessingStatus(j: Job): string
  {
    Lookup(j.annotations, ProcessingStatusAnnotation)
  }

  /** isJobAlreadyProcessed. */
  predicate IsJobAlreadyProcessed(j: Job)
  {
    ProcessingStatusAnnotation in j.annotations
    && (j.annotations[ProcessingStatusAnnotation] == StatusCompleted || j.annotations[ProcessingStatusAnnotation] == StatusFailed)
  }

  predicate IsFailedCondition(c: Condition)
  {
    c.condType == "Failed" && c.status == "True"
  }

  /** isJobCompleted: a completion time, or some Failed condition with status True. */
  predicate IsJobCompleted(j: Job)
  {
    j.completionTime.Some? || exists i :: 0 <= i < |j.conditions| && IsFailedCondition(j.conditions[i])
  }

  /** isJobCompleted, as the loop over the conditions. */
  method CheckJobCompleted(j: Job) returns (b: bool)
    ensures b <==> IsJobCompleted(j)
  {
    if j.completionTime.Some? {
      return true;
    }
    var i := 0;
    while i < |j.conditions|
      invariant 0 <= i <= |j.conditions|
      invariant forall k :: 0 <= k < i ==> !IsFailedCondition(j.conditions[k])
    {
      if j.conditions[i].condType == "Failed" && j.conditions[i].status == "True" {
        return true;
      }
      i := i + 1;
    }
    return false;
  }

  /** hasHandlerLabelChanged. */
  predicate HasHandlerLabelChanged(old_: Job, new_: Job)
  {
    ShouldHandleJob(old_) != ShouldHandleJob(new_)
  }

  /** hasCompletionStatusChanged. */
  predicate HasCompletionStatusChanged(old_: Job, new_: Job)
  {
    IsJobCompleted(old_) != IsJobCompleted(new_)
  }

  /** Setting the completion time is reported as a change exactly when the Job had not finished before. */
  lemma CompletionIsAChange(j: Job, t: string)
    ensures HasCompletionStatusChanged(j, j.(completionTime := Some(t))) <==> !IsJobCompleted(j)
    ensures !HasCompletionStatusChanged(j, j.(annotations := map[]))
  {
  }

  // ---------------------------------------------------------------------
  // processCompletedJob

  const LogsFailedError := "failed to collect logs"
  const ConfigMapFailedError := "failed to create configmap"
  const JobFailedError := "job did not complete successfully"

  /** getConfigMapName of the results: "<job>-results". */
  function ResultsConfigMapName(j: Job): string
  {
    j.name + "-results"
  }

  /** The outcome processCompletedJob reports as a success. */
  predicate ProcessingSucceeds(j: Job, logs: Option<string>, configMapOk: bool)
  {
    j.completionTime.Some? && logs.Some? && configMapOk
  }

  /**
   * processCompletedJob, the decision part. `logs` is what collectJobLogs
   * returned (None: the pod list failed) and `configMapOk` whether the
   * results ConfigMap could be created or updated. Only a Job with a
   * completion time whose logs and ConfigMap both succeed is completed, to be
   * deleted, with its results ConfigMap named; every other result carries
   * errors and is kept.
   */
  method ProcessCompletedJob(j: Job, logs: Option<string>, configMapOk: bool) returns (r: JobProcessingResult)
    ensures r.jobName == j.name
    ensures r.isCompleted <==> ProcessingSucceeds(j, logs, configMapOk)
    ensures r.shouldDelete <==> r.isCompleted
    ensures r.isCompleted ==>
              && r.errors == [] && r.reason == "processing successful"
              && r.configMapName == ResultsConfigMapName(j) && r.logs == logs.value
    ensures !r.isCompleted ==> |r.errors| > 0 && r.configMapName == ""
    ensures j.completionTime.Some? && !r.isCompleted ==>
              && r.reason == "processing failed"
              && r.errors == (if logs.None? then [LogsFailedError] else []) + (if !configMapOk then [ConfigMapFailedError] else [])
    ensures j.completionTime.None? ==>
              if logs.None? then r.reason == "log collection failed" && r.errors == [LogsFailedError]
              else r.reason == "job failed" && r.errors == [JobFailedError] && r.logs == logs.value
  {
    var errors: seq<string> := [];
    var isSuccessful := j.completionTime.Some?;
    var text := "";
    if logs.None? {
      errors := errors + [LogsFailedError];
    } else {
      text := logs.value;
    }
    if isSuccessful {
      var configMapName := ResultsConfigMapName(j);
      if !configMapOk {
        errors := errors + [ConfigMapFailedError];
      }
      if |errors| > 0 {
        return JobProcessingResult(false, j.name, "processing failed", errors, "", "", false);
      }
      return JobProcessingResult(true, j.name, "processing successful", [], text, configMapName, true);
    } else {
      if |errors| > 0 {
        return JobProcessingResult(false, j.name, "log collection failed", errors, "", "", false);
      }
      return JobProcessingResult(false, j.name, "job failed", [JobFailedError], text, "", false);
    }
  }

  // ---------------------------------------------------------------------
  // updateJobProcessingStatus

  /** The status a result asks for. */
  function DesiredStatus(r: JobProcessingResult): string
  {
    if r.isCompleted then StatusCompleted else StatusFailed
  }

  /** The annotations updateJobProcessingStatus writes, or None when the status already matches. */
  function StatusAnnotations(annotations: StringMap, r: JobProcessingResult): (w: Option<StringMap>)
  {
    if Lookup(annotations, ProcessingStatusAnnotation) == DesiredStatus(r) then None
    else Some(annotations[ProcessingStatusAnnotation := DesiredStatus(r)])
  }

  /**
   * Nothing is written exactly when the status already matches; a write sets
   * "completed" or "failed" as the result says, keeps every other annotation,
   * and leaves the Job counted as already processed.
   */
  lemma StatusAnnotationsFacts(j: Job, r: JobProcessingResult)
    ensures StatusAnnotations(j.annotations, r).None? <==>
              (r.isCompleted && ProcessingStatus(j) == StatusCompleted) || (!r.isCompleted && ProcessingStatus(j) == StatusFailed)
    ensures StatusAnnotations(j.annotations, r).Some? ==>
              var w := StatusAnnotations(j.annotations, r).value;
              && w.Keys == j.annotations.Keys + {ProcessingStatusAnnotation}
              && w[ProcessingStatusAnnotation] == (if r.isCompleted then StatusCompleted else StatusFailed)
              && (forall k :: k in j.annotations && k != ProcessingStatusAnnotation ==> w[k] == j.annotations[k])
              && IsJobAlreadyProcessed(j.(annotations := w))
              && StatusAnnotations(w, r).None?
  {
  }

  /** A Job already processed is never rewritten with the same outcome: the status annotation it holds is the one asked for, or the other final one. */
  lemma ProcessedJobHasFinalStatus(j: Job)
    requires IsJobAlreadyProcessed(j)
    ensures ProcessingStatus(j) == StatusCompleted || ProcessingStatus(j) == StatusFailed
    ensures ProcessingStatus(j) != StatusPending
  {
  }

  /** The key of the processing event of a Job. */
  function EventKey(j: Job): (k: Key)
    ensures k.0 == j.namespace
  {
    (j.namespace, j.name + "-processing-event")
  }

  datatype ReconcileResult = Requeue(after: int) | Done | ReconcileError

  /** The controller over the processing events that exist. Calls that may fail are given as flags. */
  class JobHandlerReconciler {
    var events: set<Key>

    constructor ()
      ensures events == {}
    {
      events := {};
    }

    /** createProcessingEvent: an existing event is kept; otherwise one is created when Create succeeds. */
    method CreateProcessingEvent(j: Job, createOk: bool) returns (err: bool)
      modifies this
      ensures err <==> EventKey(j) !in old(events) && !createOk
      ensures events == if createOk then old(events) + {EventKey(j)} else old(events)
    {
      var key := EventKey(j);
      if key in events {
        return false;
      }
      if !createOk {
        return true;
      }
      events := events + {key};
      return false;
    }

    /**
     * updateJobProcessingStatus. The event comes first and its failure stops
     * the update; `written` is the Job the successful Update stored.
     */
    method UpdateJobProcessingStatus(j: Job, r: JobProcessingResult, createOk: bool, updateOk: bool)
      returns (updated: bool, err: bool, written: Option<Job>)
      modifies this
      ensures var w := StatusAnnotations(j.annotations, r);
              && (w.None? ==> !updated && !err && written.None? && events == old(events))
              && (w.Some? ==>
                    && events == (if createOk then old(events) + {EventKey(j)} else old(events))
                    && var eventFails := EventKey(j) !in old(events) && !createOk;
                       && (updated <==> !eventFails)
                       && (err <==> eventFails || !updateOk)
                       && (written.Some? <==> !eventFails && updateOk)
                       && (written.Some? ==> written.value == j.(annotations := w.value)))
    {
      var currentStatus := Lookup(j.annotations, ProcessingStatusAnnotation);
      var needsUpdate := (r.isCompleted && currentStatus != StatusCompleted) || (!r.isCompleted && currentStatus != StatusFailed);
      if !needsUpdate {
        return false, false, None;
      }
      var copy := j.annotations;
      if r.isCompleted {
        copy := copy[ProcessingStatusAnnotation := StatusCompleted];
      } else {
        copy := copy[ProcessingStatusAnnotation := StatusFailed];
      }
      var eventErr := CreateProcessingEvent(j, createOk);
      if eventErr {
        return false, true, None;
      }
      if !updateOk {
        return true, true, None;
      }
      return true, false, Some(j.(annotations := copy));
    }

    /**
     * Reconcile. `got` is the Job read; `logs` and `configMapOk` are the log
     * collection and ConfigMap outcomes; the other flags say whether event
     * Create, Update and Delete succeed. The Job is deleted only after its
     * status was stored and its processing completed.
     */
    method Reconcile(got: Fetch<Job>, logs: Option<string>, configMapOk: bool, createOk: bool, updateOk: bool, deleteOk: bool)
      returns (res: ReconcileResult, written: Option<Job>, deleted: bool)
      modifies this
      ensures got.NotFound? ==> res == Done && written.None? && !deleted && events == old(events)
      ensures got.FetchFailed? ==> res == ReconcileError && written.None? && !deleted && events == old(events)
      ensures got.Found? && (!ShouldHandleJob(got.value) || IsJobAlreadyProcessed(got.value)) ==>
                res == Done && written.None? && !deleted && events == old(events)
      ensures got.Found? && ShouldHandleJob(got.value) && !IsJobAlreadyProcessed(got.value) && !IsJobCompleted(got.value) ==>
                res == Requeue(NotCompletedRequeue) && written.None? && !deleted && events == old(events)
      ensures got.Found? && ShouldHandleJob(got.value) && !IsJobAlreadyProcessed(got.value) && IsJobCompleted(got.value) ==>
                var j := got.value;
                var succeeds := ProcessingSucceeds(j, logs, configMapOk);
                var eventFails := EventKey(j) !in old(events) && !createOk;
                && events == (if createOk then old(events) + {EventKey(j)} else old(events))
                && (written.Some? <==> !eventFails && updateOk)
                && (written.Some? ==>
                      written.value == j.(annotations := j.annotations[ProcessingStatusAnnotation := if succeeds then StatusCompleted else StatusFailed]))
                && res == (if eventFails || !updateOk || (succeeds && !deleteOk) then ReconcileError else Requeue(RequeueInterval))
      ensures written.Some? ==>
                && got.Found? && ShouldHandleJob(got.value) && IsJobCompleted(got.value)
                && IsJobAlreadyProcessed(written.value)
                && (ProcessingStatus(written.value) == StatusCompleted <==> ProcessingSucceeds(got.value, logs, configMapOk))
      ensures deleted <==> written.Some? && ProcessingSucceeds(got.value, logs, configMapOk)
      ensures deleted ==> res == (if deleteOk then Requeue(RequeueInterval) else ReconcileError)
    {
      match got {
        case NotFound => return Done, None, false;
        case FetchFailed => return ReconcileError, None, false;
        case Found(j) =>
          if !ShouldHandleJob(j) {
            return Done, None, false;
          }
          if IsJobAlreadyProcessed(j) {
            return Done, None, false;
          }
          var completed := CheckJobCompleted(j);
          if !completed {
            return Requeue(NotCompletedRequeue), None, false;
          }
          var result := ProcessCompletedJob(j, logs, configMapOk);
          StatusAnnotationsFacts(j, result);
          var updated, err;
          updated, err, written := UpdateJobProcessingStatus(j, result, createOk, updateOk);
          if err {
            return ReconcileError, written, false;
          }
          if updated && result.isCompleted && result.shouldDelete {
            if !deleteOk {
              return ReconcileError, written, true;
            }
            return Requeue(RequeueInterval), written, true;
          }
          return Requeue(RequeueInterval), written, false;
      }
    }
  }
}
