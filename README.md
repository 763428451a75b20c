# Kubernetes controllers, modelled in Dafny

This project models the decision logic of seven small Kubernetes controllers
written in Go against controller-runtime:

- **Node balancer.** This is the largest part.
  - For every labelled node it sums the CPU and memory requests of the evictable pods, as a percentage of allocatable.
  - A node above 60% on either resource is overloaded. A node below 40% on both is underutilized.
  - It then moves pods from overloaded nodes to underutilized ones:
    - the heaviest pods go first, each to the least-loaded target;
    - each eviction is checked against PodDisruptionBudgets;
    - each eviction is recorded as an event.
- **Pod labeller.** A ready pod without an `app` label gets generated labels. Its image is rewritten into a valid label value.
- **Config syncer.** A labelled ConfigMap is copied into each namespace listed in an annotation.
- **Secret rotator.** A labelled Secret older than its threshold (90 days by default) is annotated as needing rotation, and one warning event is raised.
- **Auto-scaler.** A labelled Deployment is scaled one replica up or down, within 1 to 10 replicas, from its CPU usage. A 20-second cooldown applies.
- **Job handler.** A finished labelled Job is annotated `completed` or `failed`. A successful Job is then deleted.
- **Service validator.** A labelled Service is valid when every endpoint of every endpoint slice points at a running, ready Pod. The verdict is kept in an annotation.

The modules are:

- `Kube`: the shared Go and Kubernetes helpers. It covers:
  - nil-map reads;
  - `strconv.ParseBool` and `strconv.Atoi`;
  - int32 and int64 wrap-around;
  - truncating division;
  - `strings.Contains`, `Split`, `Join` and `TrimSpace`;
  - an order-keeping filter.
- One module per controller.
- The node balancer is split into four modules:
  - `NodeUsage`: usage accounting and classification;
  - `Eviction`: eviction checks and events;
  - `Placement`: sorting and target choice;
  - `NodeBalancer`: the reconciler.

How each piece is modelled:

- **Client calls.** Every client call (List, Get, Create, Update, Delete, evict) becomes one of:
  - an input value;
  - a failure flag;
  - a set of existing event names;
  - a map standing for the objects in the cluster.
- **Clock.** The clock is a parameter. Times are integer nanoseconds. Percentages are `real`.
- **Mutable state becomes imperative Dafny.** A class holds each of these:
  - the balancer's eviction calls and events;
  - the labeller's log cache;
  - the auto-scaler's cooldown cache;
  - the syncer's ConfigMap store;
  - the rotator's Secret store.

  The rebalancing loop updates an `array` of underutilized nodes in place, and the pod sort swaps inside an `array`. Each method is proved against a function. For example, `PerformRebalancing` ends in the state `Rebalance` computes. The properties are then proved about that function.

## Model

| member | source | states |
|---|---|---|
| NodeUsage.IsPodEvictable | 7.node-balancer/controllers/node-balancer.go:271-299 | A terminating pod is never evictable. When the evictable annotation exists, the result is exactly ParseBool of it (unparsable means false). Otherwise the pod is evictable iff it is not in kube-system and has no required node affinity. |
| NodeUsage.RequestPercent | 7.node-balancer/controllers/node-balancer.go:179-214 | The percentage is 0 when capacity or allocatable is zero. It never exceeds 100 (math.Min). It is non-negative for non-negative totals. With both non-zero it is total·100/allocatable up to the allocatable amount, and exactly 100 (the math.Min cap) from there on. |
| NodeUsage.GetPodsOnNode | 7.node-balancer/controllers/node-balancer.go:253-269 | A pod is kept iff it is on the node and evictable. The listing order is kept. |
| NodeUsage.CalculateCpuRequests | 7.node-balancer/controllers/node-balancer.go:179-214 | The loop's result is the request percentage of the summed millicore requests of the node's evictable pods. |
| NodeUsage.CalculateMemoryRequests | 7.node-balancer/controllers/node-balancer.go:216-251 | The same, for memory bytes. |
| NodeUsage.TotalsNonNegative | 7.node-balancer/controllers/node-balancer.go:190-203 | With non-negative requests, both summed totals are non-negative. |
| NodeUsage.ContainerSumsNonNegative | 7.node-balancer/controllers/node-balancer.go:192-200 | Per-pod container sums are non-negative for non-negative requests. |
| NodeUsage.UsageOfFacts | 7.node-balancer/controllers/node-balancer.go:140-177 | A node is never both overloaded and underutilized. Both percentages lie in [0,100]. The usage's pods are exactly the evictable pods on the node. |
| NodeUsage.AnalyzeNodeResourceUsage | 7.node-balancer/controllers/node-balancer.go:140-177 | The loop yields one usage per node, in order. It fails iff the pod list fails and there is a node. Overloaded iff cpu>60 or memory>60; underutilized iff both are <40. |
| NodeUsage.GetOverloadedNodes | 7.node-balancer/controllers/node-balancer.go:301-309 | The loop keeps exactly the overloaded entries, in their original order. |
| NodeUsage.GetUnderutilizedNodes | 7.node-balancer/controllers/node-balancer.go:311-319 | The loop keeps exactly the underutilized entries, in their original order. |
| Eviction.IntValue | 7.node-balancer/controllers/node-balancer.go:582 | IntOrString.IntValue: the integer itself; for a string, the value Atoi parses, 0 after a syntax error met before the digits overflow, and the int64 bound of the sign once they overflow or a well-formed value lies outside int64. |
| Eviction.PodMatchesPdb | 7.node-balancer/controllers/node-balancer.go:592-603 | No selector means no match, as does an unconvertible selector. Otherwise the pod matches iff every matchLabels pair is among its labels. |
| Eviction.EmptySelectorCoversAll | 7.node-balancer/controllers/node-balancer.go:597-602 | An empty selector matches every pod. |
| Eviction.PdbViolationFirst | 7.node-balancer/controllers/node-balancer.go:578-588 | No violation is reported iff no budget is violated. A reported name is that of the first violated budget. |
| Eviction.CheckPdbs | 7.node-balancer/controllers/node-balancer.go:578-588 | The loop reports a violation iff some matching budget has currentHealthy ≤ int32(minAvailable). |
| Eviction.CheckPodDisruptionBudget | 7.node-balancer/controllers/node-balancer.go:570-589 | A list failure is reported as such. Otherwise the check passes iff no budget in the pod's namespace is violated. |
| Eviction.ValidationPasses | 7.node-balancer/controllers/node-balancer.go:550-567 | Validation passes iff the pod is evictable and no budget of its namespace is violated (and the list succeeds). The "already terminating" branch can never be reached. |
| Eviction.ValidateEviction | 7.node-balancer/controllers/node-balancer.go:550-567 | The method returns the skip reason of the three ordered checks. |
| Eviction.HandleEvictionError | 7.node-balancer/controllers/node-balancer.go:606-623 | The error is swallowed iff its text mentions PodDisruptionBudget or "not found". Otherwise it is kept with its cause, and reported as forbidden iff it contains "forbidden". |
| Eviction.PdbRefusalOutranksForbidden | 7.node-balancer/controllers/node-balancer.go:609-618 | A text naming both a budget and "forbidden" is swallowed, because the case order decides. |
| Eviction.ForbiddenIsReported | 7.node-balancer/controllers/node-balancer.go:616-621 | A "forbidden" text is reported as forbidden. Any other text is reported as failed. |
| Eviction.EvictError | 7.node-balancer/controllers/node-balancer.go:469-509 | A pod that fails validation yields no error (nil). A pod that passes validation yields HandleEvictionError of its eviction call's error, and nil when the call succeeds. |
| Eviction.RecordEvent | 7.node-balancer/controllers/node-balancer.go:511-547 | After the call the "<pod>-rebalancing-event" exists. An existing event leaves the list unchanged. Otherwise exactly one event is appended. |
| Eviction.RecordEventKeepsKeysUnique | 7.node-balancer/controllers/node-balancer.go:513-520 | Recording an event never creates a second event with the same namespace and name. |
| Eviction.RecordEventIdempotent | 7.node-balancer/controllers/node-balancer.go:513-520 | Recording the same pod's event twice equals recording it once. |
| Placement.MebibytesFloor | 7.node-balancer/controllers/node-balancer.go:410 | Two truncating divisions by 1024 equal one division by 2^20 for non-negative bytes. |
| Placement.WeightSplits | 7.node-balancer/controllers/node-balancer.go:404-414 | The sort weight is at least the millicores. It is at most millicores plus memory in MiB. |
| Placement.GetPodTotalResources | 7.node-balancer/controllers/node-balancer.go:404-414 | The loop computes the pod's sort weight. |
| Placement.GetPodCpuRequest | 7.node-balancer/controllers/node-balancer.go:416-425 | The loop computes the pod's summed millicores, as a real. |
| Placement.GetPodMemoryRequest | 7.node-balancer/controllers/node-balancer.go:427-436 | The loop computes the pod's summed memory bytes, as a real. |
| Placement.InnerPass | 7.node-balancer/controllers/node-balancer.go:394-400 | The inner loop for position i, after the comparisons up to j, keeps the length. |
| Placement.OuterPass | 7.node-balancer/controllers/node-balancer.go:393-401 | The outer loop, after its first i iterations, keeps the length. |
| Placement.InnerPassPermutes | 7.node-balancer/controllers/node-balancer.go:394-400 | The inner loop for position i leaves the positions before i alone, and the result is a permutation of its input. |
| Placement.InnerPassMax | 7.node-balancer/controllers/node-balancer.go:394-400 | After the comparisons up to j, position i holds a heaviest element of positions i to j-1. |
| Placement.OuterStepSettles | 7.node-balancer/controllers/node-balancer.go:393-401 | One outer iteration extends the settled prefix by one. A settled position is no lighter than any later one. |
| Placement.OuterPassSorts | 7.node-balancer/controllers/node-balancer.go:393-401 | After i outer iterations the first i positions are settled, and the result is a permutation of the input. |
| Placement.ExchangeSortedSorts | 7.node-balancer/controllers/node-balancer.go:390-402 | sortPodsByResourceUsage yields pods in non-increasing weight, and the result is a permutation of its input. |
| Placement.ExchangeSortNotStable | 7.node-balancer/controllers/node-balancer.go:390-402 | The sort is not stable: [a:1, b:1, c:2] becomes [c, b, a]. |
| Placement.CompareWithLater | 7.node-balancer/controllers/node-balancer.go:394-400 | The in-place inner loop leaves the array as InnerPass does. |
| Placement.SortPodsByResourceUsage | 7.node-balancer/controllers/node-balancer.go:390-402 | The in-place array sort leaves the exchange-sorted order. That order is sorted by weight and is a permutation. |
| Placement.BestTarget | 7.node-balancer/controllers/node-balancer.go:438-467 | No target is chosen iff there are no underutilized nodes. Any chosen target is a valid index. |
| Placement.BestTargetIsFirstMinimum | 7.node-balancer/controllers/node-balancer.go:441-466 | The chosen node has the least score, and it is the first node with that score (strict `<`). |
| Placement.FindBestTargetNode | 7.node-balancer/controllers/node-balancer.go:438-467 | The loop over the array returns the first node of least score, where the score is (cpu + pod cpu) + (memory + pod memory). |
| Placement.Bump | 7.node-balancer/controllers/node-balancer.go:366-368 | Only the target's entry changes. Its two percentages grow by the pod's raw millicores and bytes. |
| Placement.BumpMixesUnits | 7.node-balancer/controllers/node-balancer.go:367 | Raw millicores are added to a percentage: 10% plus a 500m pod gives 510. |
| NodeBalancer.SameNodesTrans | 7.node-balancer/controllers/node-balancer.go:342-374 | Keeping the same node names is transitive. |
| NodeBalancer.GrownTrans | 7.node-balancer/controllers/node-balancer.go:366-368 | Usage only growing is transitive. |
| NodeBalancer.CallsExtendTrans | 7.node-balancer/controllers/node-balancer.go:342-374 | "Only appends eviction calls for pods drawn from a list" is transitive. |
| NodeBalancer.PlaceStepFacts | 7.node-balancer/controllers/node-balancer.go:343-373 | One pod step keeps the node set and adds at most that pod's eviction call. It keeps event names unique, and usage only grows for non-negative requests. |
| NodeBalancer.PlacePodsFacts | 7.node-balancer/controllers/node-balancer.go:342-374 | The inner loop keeps the node set, appends only calls for its pods and keeps event names unique. |
| NodeBalancer.PlacePodsGrows | 7.node-balancer/controllers/node-balancer.go:366-368 | With non-negative requests, the inner loop only ever raises the figures of the underutilized nodes. |
| NodeBalancer.EvictionOrderFromNode | 7.node-balancer/controllers/node-balancer.go:332-339 | Every pod tried for a node is one of its pods and evictable. |
| NodeBalancer.RebalanceFacts | 7.node-balancer/controllers/node-balancer.go:321-378 | performRebalancing keeps the node set and keeps event names unique. Its eviction calls are only for pods of the overloaded nodes. |
| NodeBalancer.PlacePodsTriesEveryPod | 7.node-balancer/controllers/node-balancer.go:370-373 | While every target carries its original underutilized flag, the break never fires, so every pod is tried. |
| NodeBalancer.NeverStops | 7.node-balancer/controllers/node-balancer.go:370-373 | The IsUnderutilized flag is never recomputed after a bump, so a step never stops the loop. |
| NodeBalancer.SkippedPodStillBumpsTarget | 7.node-balancer/controllers/node-balancer.go:351-368 | A pod that fails validation is not evicted, yet its target's usage is still bumped. |
| NodeBalancer.Usages | 7.node-balancer/controllers/node-balancer.go:140-177 | There is one usage per node. |
| NodeBalancer.ReconcileResultOf | 7.node-balancer/controllers/node-balancer.go:78-130 | Reconcile fails iff the node list fails, or the pod list fails while a labelled node exists. Otherwise it requeues after 30 s. |
| NodeBalancer.ReconcileEvictsOnlyFromOverloadedNodes | 7.node-balancer/controllers/node-balancer.go:78-130 | A Reconcile only appends eviction calls. Each is for an evictable pod on a labelled overloaded node, and event names stay unique. |
| NodeBalancer.PodOfOverloadedNode | 7.node-balancer/controllers/node-balancer.go:321-332 | A pod of a filtered overloaded usage lies on a labelled node whose usage is overloaded. |
| NodeBalancer.InAllPods | 7.node-balancer/controllers/node-balancer.go:325-342 | A pod among the candidates comes from one of the overloaded usages. |
| NodeBalancer.Reconciler.CreateEvictionEvent | 7.node-balancer/controllers/node-balancer.go:511-547 | The event list becomes RecordEvent of the old one. Eviction calls are unchanged. |
| NodeBalancer.Reconciler.EvictPod | 7.node-balancer/controllers/node-balancer.go:469-509 | The error is the classified eviction outcome. The new events and calls are those of the specification step. |
| NodeBalancer.Reconciler.PlaceOne | 7.node-balancer/controllers/node-balancer.go:343-373 | One iteration picks a target, evicts and bumps the target on a nil error. It asks to break exactly when PlaceStep does. |
| NodeBalancer.Reconciler.PlaceNodePods | 7.node-balancer/controllers/node-balancer.go:342-374 | The inner loop, with its break, updates the target array, events and calls exactly as PlacePods does. |
| NodeBalancer.Reconciler.RebalanceNode | 7.node-balancer/controllers/node-balancer.go:331-374 | One overloaded node: its evictable pods, sorted heaviest first, are placed in turn as PlacePods does. |
| NodeBalancer.Reconciler.PerformRebalancing | 7.node-balancer/controllers/node-balancer.go:321-378 | The nested loops update the array of underutilized usages in place, as Rebalance does. |
| NodeBalancer.Reconciler.RebalanceUsages | 7.node-balancer/controllers/node-balancer.go:109-127 | After the analysis: no change unless there are both overloaded and underutilized nodes; otherwise performRebalancing on them. |
| NodeBalancer.Reconciler.Reconcile | 7.node-balancer/controllers/node-balancer.go:78-130 | The result is ReconcileResultOf. The new events and calls are those of ReconcileEffect. |
| PodLabeller.MapChar | pod-labeller/controllers/pod_controller.go:145-159 | The result is always a label character. A label character is kept; any other character becomes '-'. |
| PodLabeller.MapChars | pod-labeller/controllers/pod_controller.go:145-159 | The per-rune rewrite keeps the length. |
| PodLabeller.SanitizedShape | pod-labeller/controllers/pod_controller.go:142-181 | Every sanitized value consists of label characters and starts and ends alphanumeric. The empty value gives "img". |
| PodLabeller.SanitizedLength | pod-labeller/controllers/pod_controller.go:161-178 | When a prefix or suffix is added, the value fits in 63 characters. Otherwise its length is unchanged. |
| PodLabeller.SanitizedIdempotent | pod-labeller/controllers/pod_controller.go:142-181 | Sanitizing twice equals sanitizing once. |
| PodLabeller.SanitizeLabelValue | pod-labeller/controllers/pod_controller.go:142-181 | The loop and the fix-ups compute the sanitized value. |
| PodLabeller.FixEnds | pod-labeller/controllers/pod_controller.go:161-178 | The prefix fix-up (with its cut to 63) and then the suffix fix-up (with its cut to 59) give WithSuffix(WithPrefix(m)). |
| PodLabeller.GenerateLabels | pod-labeller/controllers/pod_controller.go:98-123 | The processed and namespace labels are always set. `app` is set iff the name is non-empty. `image` is set iff there is a container, to its sanitized image. No other key is set. |
| PodLabeller.AddLabels | pod-labeller/controllers/pod_controller.go:80-95 | Generated labels override existing ones, other labels are kept, and nothing else in the pod changes. |
| PodLabeller.LabellingSettles | pod-labeller/controllers/pod_controller.go:56-78 | A labelled pod with a name has the required label, and labelling it again changes nothing. |
| PodLabeller.LabelUpdate | pod-labeller/controllers/pod_controller.go:25-70 | A pod is written iff it is outside the system namespaces, readable, ready and lacks `app`. It is written with the added labels. |
| PodLabeller.LogThrottled | pod-labeller/controllers/pod_controller.go:203-219 | After a logged line, the same pod is silent for 5 s and may log again afterwards. |
| PodLabeller.PodReconciler.ShouldLogPodNotReady | pod-labeller/controllers/pod_controller.go:203-219 | The method logs iff there is no entry or more than 5 s have passed. The cache records `now` exactly when it logs. |
| PodLabeller.PodReconciler.Reconcile | pod-labeller/controllers/pod_controller.go:25-70 | The written pod is LabelUpdate's. The result fails iff a write fails. The log cache changes only for a not-ready pod. |
| ConfigSyncer.TargetNamespacesOf | config-syncer/controllers/config_syncer.go:92-109 | With no annotation the list is empty. Otherwise it holds one trimmed entry per comma-separated piece. |
| ConfigSyncer.TrimKeepsOut | config-syncer/controllers/config_syncer.go:105 | Trimming never introduces a character. |
| ConfigSyncer.TargetNamespacesCount | config-syncer/controllers/config_syncer.go:103-106 | There are commas+1 entries, and none contains a comma. |
| ConfigSyncer.GetTargetNamespaces | config-syncer/controllers/config_syncer.go:92-109 | The in-place trimming loop yields TargetNamespacesOf. |
| ConfigSyncer.ListsDiffer | config-syncer/controllers/config_syncer.go:290-299 | The length-then-elementwise loop reports a difference iff the lists differ. |
| ConfigSyncer.HasTargetNamespaceChanged | config-syncer/controllers/config_syncer.go:285-300 | A change is reported iff the parsed target lists differ. |
| ConfigSyncer.TargetName | config-syncer/controllers/config_syncer.go:130-140 | The target-name annotation, when present; otherwise the source's name. |
| ConfigSyncer.CreateTarget | config-syncer/controllers/config_syncer.go:142-160 | The new ConfigMap has the target name and namespace, only the synced label, only the source annotation, and the source's data. |
| ConfigSyncer.UpdateTarget | config-syncer/controllers/config_syncer.go:162-181 | The data is replaced and the source annotation is set. Name, namespace, labels and every other annotation are kept. |
| ConfigSyncer.DataMatches | config-syncer/controllers/config_syncer.go:188-192 | The loop over the source data answers true iff every source key reads its own value from the target, a missing key reading as "". |
| ConfigSyncer.BinaryDataMatches | config-syncer/controllers/config_syncer.go:198-202 | The same for binary data, a missing key reading as empty bytes. |
| ConfigSyncer.ConfigMapsEqualAsWritten | config-syncer/controllers/config_syncer.go:183-205 | The loops compute the comparison as written: sizes, then source keys read with missing keys as empty. |
| ConfigSyncer.LooselyEqualMissesMissingKey | config-syncer/controllers/config_syncer.go:185-192 | Data {"a":""} and {"b":"x"} compare equal, although the maps differ. |
| ConfigSyncer.SameSizeSubmap | config-syncer/controllers/config_syncer.go:185-192 | Two maps of the same size, one contained in the other, are equal. |
| ConfigSyncer.ConfigMapsEqual | config-syncer/controllers/config_syncer.go:183-205 | The corrected comparison: equal iff data and binary data are equal. |
| ConfigSyncer.SyncWrite | config-syncer/controllers/config_syncer.go:111-181 | A missing target is created under the target name. A write always carries the source's data. An existing target is left alone iff it passes the comparison in use (loose as written, identical data when corrected). |
| ConfigSyncer.SyncAllCopies | config-syncer/controllers/config_syncer.go:72-78 | On success, every listed namespace holds a target that passes the comparison in use; with the corrected comparison it holds exactly the source's data. No other key and no unlisted namespace is touched. |
| ConfigSyncer.SyncAllReaches | config-syncer/controllers/config_syncer.go:72-78 | On success every listed namespace holds a target that passes the comparison in use. |
| ConfigSyncer.SyncAllFrame | config-syncer/controllers/config_syncer.go:72-78 | The loop touches only the target name in the listed namespaces. |
| ConfigSyncer.SyncOneSettles | config-syncer/controllers/config_syncer.go:111-128 | A second sync of the same namespace after a success writes nothing, under either comparison. |
| ConfigSyncer.UnreadableTargetStopsSync | config-syncer/controllers/config_syncer.go:117-124 | A target whose Get fails with an error other than not-found stops the loop with an error and no write, even when that target is already up to date. |
| ConfigSyncer.StaleTargetSurvivesSync | config-syncer/controllers/config_syncer.go:162-167 | A labelled source with data {"a":""} syncing into "team", whose copy holds {"b":"x"}: the loop as written succeeds and leaves the stale copy untouched, while the corrected comparison rewrites it with the source's data. |
| ConfigSyncer.ConfigMapReconciler.SyncConfigMap | config-syncer/controllers/config_syncer.go:111-128 | The store and outcome are those of SyncOne with the loose comparison of configMapsEqual as written: a failed target read is an error, a missing target is created, and an existing one is updated unless it compares loosely equal. |
| ConfigSyncer.ConfigMapReconciler.Reconcile | config-syncer/controllers/config_syncer.go:42-82 | A read failure is an error. Missing, unlabelled or target-less maps are skipped. Otherwise the store is that of SyncAll with the loose comparison as written, and the result is an error iff some namespace's target read or write failed. |
| SecretRotator.GetRotationThreshold | secret-rotator/controllers/secret_rotator.go:201-218 | The threshold lies in int64 range. It is 90 when the annotation is missing. |
| SecretRotator.ThresholdReadsAnnotation | secret-rotator/controllers/secret_rotator.go:206-217 | A threshold written in decimal is the one read back. |
| SecretRotator.UnreadableThresholdIsDefault | secret-rotator/controllers/secret_rotator.go:211-215 | An unparsable threshold counts as 90. |
| SecretRotator.ThresholdChangeIsEffective | secret-rotator/controllers/secret_rotator.go:330-334 | Unparsable→"90", unparsable→unparsable, and missing→"90" are not changes. Missing→"30" is a change. |
| SecretRotator.ThresholdAddedChanges | secret-rotator/controllers/secret_rotator.go:330-334 | For any text, adding the threshold annotation where there was none is a change iff Atoi accepts the text and reads a value other than 90. A text with a syntax error is never a change. |
| SecretRotator.DecimalThresholdAddedChanges | secret-rotator/controllers/secret_rotator.go:330-334 | Adding a decimal threshold of d ≤ 2^63−1 days where there was none is a change iff d ≠ 90. |
| SecretRotator.DaysToDuration | secret-rotator/controllers/secret_rotator.go:119 | days·24h with int64 wrap-around. It is exact for up to 106751 days. |
| SecretRotator.HugeThresholdWraps | secret-rotator/controllers/secret_rotator.go:119 | A threshold of 106752 days wraps to a negative duration. |
| SecretRotator.Since | secret-rotator/controllers/secret_rotator.go:128 | time.Since saturates to the int64 range. It is exact inside it. |
| SecretRotator.CalculateTestAge | secret-rotator/controllers/secret_rotator.go:187-199 | One day when the annotation is missing. The parsed days as a duration when it parses. |
| SecretRotator.CheckSecretRotation | secret-rotator/controllers/secret_rotator.go:116-132 | The secret needs rotation iff its age strictly exceeds the threshold duration. |
| SecretRotator.RotationDueAfterThreshold | secret-rotator/controllers/secret_rotator.go:116-132 | In production, within range: due iff now−created > days·24h (90 days without annotation). |
| SecretRotator.TestModeDefaultAge | secret-rotator/controllers/secret_rotator.go:187-218 | In test mode an unannotated secret is never due. |
| SecretRotator.NewAnnotationsFacts | secret-rotator/controllers/secret_rotator.go:134-185 | Nothing is written iff the marker already agrees and a check time exists. A write stamps the time, makes the marker agree and keeps all other annotations. |
| SecretRotator.NewAnnotationsSettle | secret-rotator/controllers/secret_rotator.go:136-151 | After one write, the next check with the same outcome writes nothing. |
| SecretRotator.FlaggedSecretStaysQuiet | secret-rotator/controllers/secret_rotator.go:136-151 | A flagged, checked secret that is still due is neither rewritten nor alerted again. |
| SecretRotator.AlertKey | secret-rotator/controllers/secret_rotator.go:222 | The alert event lives in the secret's namespace. |
| SecretRotator.SecretRotatorReconciler.CreateRotationEvent | secret-rotator/controllers/secret_rotator.go:220-255 | An existing alert is kept without error. Otherwise a successful Create adds it, and a failed one is an error. |
| SecretRotator.SecretRotatorReconciler.BatchUpdateSecret | secret-rotator/controllers/secret_rotator.go:134-185 | `updated`, the error and the new store follow NewAnnotations. An alert is created only when the marker goes from unset to due and the Update succeeded. |
| SecretRotator.SecretRotatorReconciler.Reconcile | secret-rotator/controllers/secret_rotator.go:49-106 | A read failure is an error. A missing or unlabelled secret is skipped. For a monitored secret the result is an error iff batchUpdateSecret fails (the Update, or the alert Create on the unset-to-due transition), and a requeue after 24 h otherwise; the store and alerts are batchUpdateSecret's. A requeue leaves the marker agreeing with the check and a check time recorded. |
| AutoScaler.ScaleDecision | auto-scaler/controllers/auto_scaler.go:136-157 | Scale iff (cpu>60 and replicas<10) or (cpu<40 and replicas>1). Without scaling, the count is unchanged. |
| AutoScaler.ScaleDecisionBounded | auto-scaler/controllers/auto_scaler.go:140-156 | From 1..10 the new count stays in 1..10. Up means +1 and down means −1. |
| AutoScaler.ScaleDecisionHysteresis | auto-scaler/controllers/auto_scaler.go:140-156 | Usage in [40,60] never scales. Counts outside 1..10 only move towards the range. |
| AutoScaler.CooldownLasts | auto-scaler/controllers/auto_scaler.go:166-191 | After scaling at `now` the deployment is in cooldown exactly until now+20 s. Other deployments are unaffected. |
| AutoScaler.DeploymentReconciler.IsInCooldown | auto-scaler/controllers/auto_scaler.go:166-180 | False with no entry; otherwise now−last < 20 s. |
| AutoScaler.DeploymentReconciler.SetCoolDown | auto-scaler/controllers/auto_scaler.go:182-191 | The cache records `now` for the name. |
| AutoScaler.DeploymentReconciler.ShouldScale | auto-scaler/controllers/auto_scaler.go:136-157 | The decision is ScaleDecision's. A cooldown is recorded exactly when it scales. |
| AutoScaler.DeploymentReconciler.Reconcile | auto-scaler/controllers/auto_scaler.go:42-130 | The gates are checked in order: system namespace, read, label, readiness (requeue), cooldown (requeue, before CPU is read). A Deployment is written iff all pass and the decision scales; when the decision does not scale the result is a 20 s requeue with nothing written. Its cooldown is recorded even when the Update fails. |
| JobHandler.ErrorText | 6.job-handler/controllers/job-handler.go:56-65 | Empty iff the result is completed. Otherwise a "job …" message. |
| JobHandler.CheckJobCompleted | 6.job-handler/controllers/job-handler.go:161-175 | True iff there is a completion time or some Failed condition is True. |
| JobHandler.CompletionIsAChange | 6.job-handler/controllers/job-handler.go:499-503 | Setting a completion time is a change iff the job had not finished. Annotations alone never are. |
| JobHandler.ProcessCompletedJob | 6.job-handler/controllers/job-handler.go:177-216 | Completed iff there is a completion time, logs were collected and the ConfigMap succeeded. Only then is the job marked for deletion, with the "<name>-results" ConfigMap. Every other result carries errors, with the exact reasons and errors of each branch. |
| JobHandler.StatusAnnotationsFacts | 6.job-handler/controllers/job-handler.go:338-380 | No write iff the status already matches. A write sets "completed" or "failed", keeps other annotations, makes the job count as processed, and settles. |
| JobHandler.ProcessedJobHasFinalStatus | 6.job-handler/controllers/job-handler.go:153-159 | A processed job's status is "completed" or "failed". |
| JobHandler.EventKey | 6.job-handler/controllers/job-handler.go:393 | The processing event lives in the job's namespace. |
| JobHandler.JobHandlerReconciler.CreateProcessingEvent | 6.job-handler/controllers/job-handler.go:389-437 | An existing event is kept. Otherwise Create adds it, or reports an error. |
| JobHandler.JobHandlerReconciler.UpdateJobProcessingStatus | 6.job-handler/controllers/job-handler.go:338-380 | Nothing happens when the status matches. Otherwise the event comes first and its failure stops the update; `updated`, the error and the written job follow. |
| JobHandler.JobHandlerReconciler.Reconcile | 6.job-handler/controllers/job-handler.go:78-143 | Unlabelled or processed jobs are skipped. Unfinished jobs are requeued after 30 s. A finished job gets its event, then is written with status "completed" or "failed" iff the event exists or is created and the Update succeeds. The result is an error iff the event, the Update or the deletion of a successful job fails, and a 5 min requeue otherwise. The job is deleted iff its status was stored and processing succeeded. A Job that is not found or cannot be read leaves the events unchanged. |
| ServiceValidator.ErrorText | service-validator/controllers/service-validator.go:50-59 | Empty iff valid. Otherwise a "service …" message. |
| ServiceValidator.PodIssues | service-validator/controllers/service-validator.go:214-229 | No issue iff the pod is Running with a Ready=True condition. |
| ServiceValidator.TargetPodResult | service-validator/controllers/service-validator.go:195-236 | Valid iff the target is a Pod that can be read, Running and Ready. The reasons for a non-Pod kind and a missing Pod are given. |
| ServiceValidator.ValidateTargetPod | service-validator/controllers/service-validator.go:195-236 | The method with its Ready search loop computes TargetPodResult. |
| ServiceValidator.EndpointDetail | service-validator/controllers/service-validator.go:176-185 | An endpoint contributes no detail iff it has a target reference and the target validates. |
| ServiceValidator.EndpointDetailsEmpty | service-validator/controllers/service-validator.go:175-188 | The slice collects no detail iff every endpoint passes. There is at most one detail per endpoint. |
| ServiceValidator.SliceResult | service-validator/controllers/service-validator.go:166-193 | Valid iff the slice has endpoints and every one passes. An empty slice has its own reason. |
| ServiceValidator.ValidateEndpointSlice | service-validator/controllers/service-validator.go:166-193 | The loop computes SliceResult. |
| ServiceValidator.SliceDetailsStep | service-validator/controllers/service-validator.go:152-157 | One more slice adds its error text exactly when it is invalid. |
| ServiceValidator.SliceDetailsEmpty | service-validator/controllers/service-validator.go:152-159 | No detail iff every slice is valid. |
| ServiceValidator.ServiceResult | service-validator/controllers/service-validator.go:134-164 | Valid iff the slices can be listed, there is at least one, and all are valid. No slices gives "no endpoint slices found". Details are the invalid slices' errors. |
| ServiceValidator.ValidateServiceEndpoints | service-validator/controllers/service-validator.go:134-164 | The loop computes ServiceResult. |
| ServiceValidator.OneBadEndpointInvalidates | service-validator/controllers/service-validator.go:134-193 | One failing endpoint anywhere makes the Service invalid, with a non-empty error. |
| ServiceValidator.StatusAnnotationsFacts | service-validator/controllers/service-validator.go:238-274 | No write iff the status already matches. A write sets "valid" or "invalid", keeps other annotations, and settles. |
| ServiceValidator.AlertKey | service-validator/controllers/service-validator.go:287 | The alert event lives in the Service's namespace. |
| ServiceValidator.ServiceValidatorReconciler.CreateValidationEvent | service-validator/controllers/service-validator.go:283-338 | An existing alert is kept. Otherwise Create adds it, or reports an error. |
| ServiceValidator.ServiceValidatorReconciler.UpdateServiceValidationStatus | service-validator/controllers/service-validator.go:238-274 | Nothing happens when the status matches. Only an invalid verdict raises an event, and its failure stops the update. The written Service carries the new status. |
| ServiceValidator.ServiceValidatorReconciler.Reconcile | service-validator/controllers/service-validator.go:71-132 | Unlabelled Services are skipped. A labelled Service whose status already matches its validation is requeued untouched. Otherwise it is written with "valid" or "invalid" iff the alert (for an invalid one) exists or is created and the Update succeeds; the result is an error iff one of those fails, and a 30 s requeue otherwise. An alert is only ever added for an invalid Service. |
| Kube.ParseBool | 7.node-balancer/controllers/node-balancer.go:280 | strconv.ParseBool accepts exactly the six true and six false spellings. |
| Kube.Atoi | secret-rotator/controllers/secret_rotator.go:212 | strconv.Atoi fails iff the text is not an optionally signed decimal, or it is outside int64. |
| Kube.AtoiValue | 7.node-balancer/controllers/node-balancer.go:582 | The integer Atoi hands back beside its error, which IntOrString.IntValue uses: the parsed value when Atoi succeeds; the int64 bound of the sign once the leading digits exceed 2^64-1 or a well-formed value is outside int64; 0 after any other syntax error. |
| Kube.OverflowBeforeJunk | 7.node-balancer/controllers/node-balancer.go:582 | Digits past 2^64-1 followed by a non-digit are an Atoi error whose value is MaxInt64, or MinInt64 after a minus sign, not 0. |
| Kube.SplitWithoutSeparator | config-syncer/controllers/config_syncer.go:103 | Text without the separator splits into itself alone. |
| Kube.AtoiReadsDecimal | secret-rotator/controllers/secret_rotator.go:212 | Atoi reads back any int64 written in decimal. |
| Kube.ToInt32 | 7.node-balancer/controllers/node-balancer.go:582 | The int32 conversion keeps the value in range and wraps it modulo 2^32 otherwise. |
| Kube.ToInt64 | secret-rotator/controllers/secret_rotator.go:119 | int64 arithmetic keeps the value in range and wraps it modulo 2^64 otherwise. |
| Kube.Quo | 7.node-balancer/controllers/node-balancer.go:410 | Go's integer division truncates toward zero. |
| Kube.ContainsMeansOccurs | 7.node-balancer/controllers/node-balancer.go:610-616 | strings.Contains holds iff the substring occurs at some index. |
| Kube.Split | config-syncer/controllers/config_syncer.go:103 | strings.Split never yields an empty list of pieces. |
| Kube.JoinWith | service-validator/controllers/service-validator.go:56 | strings.Join of one part is that part; a join is never shorter than its first part. |
| Kube.SplitPieces | config-syncer/controllers/config_syncer.go:103 | strings.Split yields one piece more than there are separators, none holding one. |
| Kube.JoinSplit | config-syncer/controllers/config_syncer.go:103 | Joining the pieces gives the text back. |
| Kube.TrimLeftShape | config-syncer/controllers/config_syncer.go:105 | Left trimming drops exactly the leading white space: a suffix of the text that starts with a non-space. |
| Kube.TrimRightShape | config-syncer/controllers/config_syncer.go:105 | Right trimming drops exactly the trailing white space: a prefix of the text that ends with a non-space. |
| Kube.TrimSpaceShape | config-syncer/controllers/config_syncer.go:105 | strings.TrimSpace yields a substring with no space at either end. |
| Kube.TrimSpaceIdempotent | config-syncer/controllers/config_syncer.go:105 | Trimming twice equals trimming once. |
| Kube.FilterMembers | 7.node-balancer/controllers/node-balancer.go:301-319 | The order-keeping filter keeps exactly the elements satisfying the predicate. |
| Kube.FilterAppend | 7.node-balancer/controllers/node-balancer.go:301-319 | Filtering keeps the original order: the filter of a concatenation is the concatenation of the filters. |
| Kube.Select | 7.node-balancer/controllers/node-balancer.go:301-319 | The appending loop computes the filter. |

## Left out

- Client I/O is not modelled; its results are inputs:
  - List, Get, Create, Update and Delete;
  - the eviction subresource;
  - the log and ConfigMap writes of the job handler.

  Event existence is a set of names, or a list for the balancer. A Get error other than not-found counts as "absent" when checking for an existing event, as in the source (it then tries Create).
- Concurrency is not modelled:
  - the mutexes of the labeller and the auto-scaler;
  - overlapping reconciles.

  The caches are single-threaded class fields.
- The clock and the environment are parameters: `time.Now`, `time.Since`, `os.Getenv("TEST_MODE")`. RFC 3339 time stamps are opaque strings.
- `getFakeCPUUsage` is random. The CPU value is an input of the auto-scaler's Reconcile.
- Floating point: float64 percentages and scores are `real`, and IEEE rounding is not modelled.
- Resource quantities are integers (millicores and bytes); `resource.Quantity` parsing is not modelled.
- Label selectors: only `matchLabels` is modelled. `matchExpressions` is folded into a "convertible" flag, because `LabelSelectorAsSelector` is a library the model does not contain.
- The manager bootstrap (`main.go`), `SetupWithManager` and the event-filter closures are framework registration and logging. The change-detection helpers they call are modelled: hasRotationLabelChanged, hasRotationThresholdChanged, hasSyncLabelChanged, hasTargetNamespaceChanged, hasHandlerLabelChanged, hasCompletionStatusChanged and hasValidationLabelChanged.
- Log collection in the job handler (`collectJobLogs`, `getPodLogs`, `getContainerState`) is an input: the collected text, or a failure.
- Log and event message text is abstract. The wrapped cause in error details ("failed to collect logs: %v") is dropped.
- Eviction.Cluster: checkPodDisruptionBudget lists the budgets again for every pod it checks. The model takes one snapshot of the budgets (filtered by namespace per pod) and one list-failure flag for the whole rebalancing, so a list that fails for some pods and succeeds for others is not captured.
- Eviction.Pdb: a nil `MinAvailable` makes the source panic. The model requires it to be present.
- NodeBalancer.Reconciler.Reconcile: the source lists all pods three times per node (CPU, memory, pods on node). The model reads one pod list per Reconcile, so a listing that changes mid-Reconcile is not captured.
- NodeBalancer.Reconciler.CreateEvictionEvent: a failed event Create is only logged by the source, so the model lets Create always succeed.
- NodeBalancer.Reconciler.PerformRebalancing: the source always returns nil, so the model has no error result.
- int64 overflow of the summed requests in the balancer is not modelled (the sums are unbounded integers). The int32 cast of `minAvailable`, the int64 wrap of day-based durations and the truncating division are modelled.
- PodLabeller.SanitizedLength: a value that needs neither prefix nor suffix keeps its full length, even beyond 63 characters, as the source does. The contract states that and no length bound.
- AutoScaler.DeploymentReconciler.IsInCooldown: `time.Since` saturation is not modelled. The difference `now − last` is exact.
- Strings are sequences of characters. `TrimSpace` trims ASCII white space only, and Unicode spaces are not modelled.

## Findings

| source | as written | input that shows it | evidently intended | confidence | as-written member | corrected member |
|---|---|---|---|---|---|---|
| config-syncer/controllers/config_syncer.go:183-205 | configMapsEqual compares sizes, then reads each source key from the target, and a missing target key reads as "". | source data {"a": ""}, target data {"b": "x"}: same size, and target["a"] reads as "" | A target whose keys differ from the source is out of date and is updated. | high (not executed) | ConfigSyncer.LooselyEqualMissesMissingKey | ConfigSyncer.ConfigMapsEqual |
| config-syncer/controllers/config_syncer.go:162-167 | updateTargetConfigMap skips the Update whenever configMapsEqual holds, so Reconcile reports success and leaves the copy stale. | source {"a": ""} labelled for namespace "team", existing copy in "team" with data {"b": "x"} | Every successful sync leaves the source's data in each target namespace. | high (not executed) | ConfigSyncer.StaleTargetSurvivesSync | ConfigSyncer.SyncAllCopies |

The syncer's update path (`SyncWrite`, `SyncOne`, `SyncAll`) takes the comparison as a flag. The reconciler class runs it as written, through `ConfigSyncer.ConfigMapsEqualAsWritten`, so its contracts describe the stale copies the program leaves. With the flag set, the same functions use the corrected `ConfigSyncer.ConfigMapsEqual`, and `ConfigSyncer.SyncAllCopies` proves that every target then holds the source's data.

Two behaviours of the code that a reader might not expect, which the model follows:

- the pod sort is not stable;
- when validation skips a pod, `evictPod` still reports success, so the target's usage is bumped.
