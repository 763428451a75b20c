/**
 * The pod labeller: once a pod outside the system namespaces is Running and
 * Ready and has no "app" label, it receives generated labels (its name, its
 * namespace, its first container's image made into a valid label value, and
 * a processed marker). Not-ready pods are logged at most once per five
 * seconds each.
 */
module PodLabeller {
  import opened Kube

  const AppLabel := "app"
  const NamespaceLabel := "namesapce"   // the key as the controller spells it
  const ImageLabel := "image"
  const ProcessedLabel := "pod-labeller/processed"
  const MaxLabelLength := 63
  const LogInterval := 5 * Second

  datatype LabelledPod = LabelledPod(
    name: string,
    namespace: string,
    labels: StringMap,
    images: seq<string>,       // the image of each container, in order
    phase: string,
    conditions: seq<Condition>)

  // ---------------------------------------------------------------------
  // sanitizeLabelValue

  predicate IsAlphanumeric(c: char)
  {
    ('a' <= c <= 'z') || ('A' <= c <= 'Z') || ('0' <= c <= '9')
  }

  /** A character a label value may hold. */
  predicate IsLabelChar(c: char)
  {
    IsAlphanumeric(c) || c == '_' || c == '.' || c == '-'
  }

  /** The per-rune rewrite: label characters stay, everything else becomes '-'. */
  function MapChar(c: char): (r: char)
    ensures IsLabelChar(r)
    ensures IsLabelChar(c) ==> r == c
    ensures !IsLabelChar(c) ==> r == '-'
  {
    if IsLabelChar(c) then c else '-'
  }

  function MapChars(s: string): (r: string)
    ensures |r| == |s|
  {
    seq(|s|, i requires 0 <= i < |s| => MapChar(s[i]))
  }

  /** Prefix "img-" when the value starts with a non-alphanumeric, keeping at most 63 characters. */
  function WithPrefix(s: string): string
    requires |s| > 0
  {
    if IsAlphanumeric(s[0]) then s
    else
      var p := "img-" + s;
      if |p| > MaxLabelLength then p[..MaxLabelLength] else p
  }

  /** Append "-img" when the value ends with a non-alphanumeric, first cutting it to 59 characters if needed. */
  function WithSuffix(s: string): string
    requires |s| > 0
  {
    if IsAlphanumeric(s[|s| - 1]) then s
    else (if |s| + 4 > MaxLabelLength then s[..59] else s) + "-img"
  }

  /** The value sanitizeLabelValue returns. */
  function Sanitized(v: string): string
  {
    var m := MapChars(v);
    if |m| == 0 then "img" else WithSuffix(WithPrefix(m))
  }

  predicate AllLabelChars(s: string)
  {
    forall i :: 0 <= i < |s| ==> IsLabelChar(s[i])
  }

  /**
   * Every character of the result is a label character; an empty input
   * gives "img"; any other result starts and ends with an alphanumeric.
   */
  lemma SanitizedShape(v: string)
    ensures AllLabelChars(Sanitized(v))
    ensures |v| == 0 ==> Sanitized(v) == "img"
    ensures |Sanitized(v)| > 0 && IsAlphanumeric(Sanitized(v)[0]) && IsAlphanumeric(Sanitized(v)[|Sanitized(v)| - 1])
  {
    var m := MapChars(v);
    if |m| > 0 {
      var p := WithPrefix(m);
      assert AllLabelChars(p) && IsAlphanumeric(p[0]) by {
        if !IsAlphanumeric(m[0]) {
          var q := "img-" + m;
          assert AllLabelChars(q);
        }
      }
      var r := WithSuffix(p);
      if !IsAlphanumeric(p[|p| - 1]) {
        var t := if |p| + 4 > MaxLabelLength then p[..59] else p;
        assert r == t + "-img";
        assert r[|r| - 1] == 'g';
        assert r[0] == t[0] == p[0];
      }
    }
  }

  /**
   * When a prefix or a suffix is added the result fits in 63 characters;
   * when neither is, the result is as long as the input.
   */
  lemma SanitizedLength(v: string)
    requires |v| > 0
    ensures var m := MapChars(v);
            (!IsAlphanumeric(m[0]) || !IsAlphanumeric(WithPrefix(m)[|WithPrefix(m)| - 1])) ==> |Sanitized(v)| <= MaxLabelLength
    ensures var m := MapChars(v);
            (IsAlphanumeric(m[0]) && IsAlphanumeric(m[|m| - 1])) ==> |Sanitized(v)| == |v|
  {
  }

  /** A sanitized value is left as it is. */
  lemma SanitizedIdempotent(v: string)
    ensures Sanitized(Sanitized(v)) == Sanitized(v)
  {
    var s := Sanitized(v);
    SanitizedShape(v);
    assert MapChars(s) == s;
  }

  /** sanitizeLabelValue. */
  method SanitizeLabelValue(value: string) returns (result: string)
    ensures result == Sanitized(value)
  {
    result := "";
    var i := 0;
    while i < |value|
      invariant 0 <= i <= |value|
      invariant |result| == i
      invariant forall k :: 0 <= k < i ==> result[k] == MapChar(value[k])
    {
      var c := value[i];
      if IsAlphanumeric(c) {
        result := result + [c];
      } else if c == '/' || c == ':' {
        result := result + "-";
      } else if c == '_' || c == '.' || c == '-' {
        result := result + [c];
      } else {
        result := result + "-";
      }
      i := i + 1;
    }
    assert result == MapChars(value);
    if |result| == 0 {
      return "img";
    }
    result := FixEnds(result);
  }

  /** The prefix and suffix fix-ups at the end of sanitizeLabelValue. */
  method FixEnds(m: string) returns (result: string)
    requires |m| > 0
    ensures result == WithSuffix(WithPrefix(m))
  {
    result := m;
    if !IsAlphanumeric(result[0]) {
      result := "img-" + result;
      if |result| > MaxLabelLength {
        result := result[..MaxLabelLength];
      }
    }
    if !IsAlphanumeric(result[|result| - 1]) {
      if |result| + 4 > MaxLabelLength {
        result := result[..59];
      }
      result := result + "-img";
    }
  }

  // ---------------------------------------------------------------------
  // Labels

  /** generateLabels. */
  function GenerateLabels(pod: LabelledPod): (r: StringMap)
    ensures ProcessedLabel in r && r[ProcessedLabel] == "true"
    ensures NamespaceLabel in r && r[NamespaceLabel] == pod.namespace
    ensures AppLabel in r <==> pod.name != ""
    ensures AppLabel in r ==> r[AppLabel] == pod.name
    ensures ImageLabel in r <==> |pod.images| > 0
    ensures ImageLabel in r ==> r[ImageLabel] == Sanitized(pod.images[0])
    ensures r.Keys <= {AppLabel, NamespaceLabel, ImageLabel, ProcessedLabel}
  {
    var withApp: StringMap := if pod.name != "" then map[AppLabel := pod.name] else map[];
    var withNamespace := withApp[NamespaceLabel := pod.namespace];
    var withImage :=
      if |pod.images| > 0 && Sanitized(pod.images[0]) != "" then withNamespace[ImageLabel := Sanitized(pod.images[0])]
      else withNamespace;
    assert |pod.images| > 0 ==> Sanitized(pod.images[0]) != "" by {
      if |pod.images| > 0 { SanitizedShape(pod.images[0]); }
    }
    withImage[ProcessedLabel := "true"]
  }

  /** addLabelsToPod: the existing labels, overridden by the generated ones. */
  function AddLabels(pod: LabelledPod): (r: LabelledPod)
    ensures r.(labels := pod.labels) == pod
    ensures r.labels.Keys == pod.labels.Keys + GenerateLabels(pod).Keys
    ensures forall k :: k in GenerateLabels(pod) ==> r.labels[k] == GenerateLabels(pod)[k]
    ensures forall k :: k in pod.labels && k !in GenerateLabels(pod) ==> r.labels[k] == pod.labels[k]
  {
    pod.(labels := pod.labels + GenerateLabels(pod))
  }

  /** hasRequiredLables: only the "app" label is looked at. */
  predicate HasRequiredLabels(pod: LabelledPod)
  {
    AppLabel in pod.labels
  }

  /** isPodReady: Running, with a Ready condition whose status is True. */
  predicate IsPodReady(pod: LabelledPod)
  {
    pod.phase == "Running" && exists c <- pod.conditions :: c.condType == "Ready" && c.status == "True"
  }

  /** A labelled pod with a name is not labelled again. */
  lemma LabellingSettles(pod: LabelledPod)
    requires pod.name != ""
    ensures HasRequiredLabels(AddLabels(pod))
    ensures AddLabels(AddLabels(pod)).labels == AddLabels(pod).labels
  {
    var once := AddLabels(pod);
    assert GenerateLabels(once) == GenerateLabels(pod);
  }

  /** The pod Reconcile writes back, given the namespace of the request and the pod read (None: the read failed). */
  function LabelUpdate(namespace: string, got: Option<LabelledPod>): (r: Option<LabelledPod>)
    ensures r.Some? <==> !IsSystemNamespace(namespace) && got.Some? && IsPodReady(got.value) && !HasRequiredLabels(got.value)
    ensures r.Some? ==> r == Some(AddLabels(got.value))
  {
    if IsSystemNamespace(namespace) then None
    else if got.None? then None
    else if !IsPodReady(got.value) then None
    else if HasRequiredLabels(got.value) then None
    else Some(AddLabels(got.value))
  }

  /** Whether a not-ready pod is logged at `now`: no entry yet, or more than five seconds since the last one. */
  predicate LogDue(cache: map<string, int>, podName: string, now: int)
  {
    podName !in cache || now - cache[podName] > LogInterval
  }

  /** After a logged line, the same pod is quiet for five seconds. */
  lemma LogThrottled(cache: map<string, int>, podName: string, now: int, later: int)
    requires now <= later <= now + LogInterval
    ensures !LogDue(cache[podName := now], podName, later)
    ensures LogDue(cache[podName := now], podName, now + LogInterval + 1)
  {
  }

  datatype LabelResult = Done | UpdateFailed

  class PodReconciler {
    /** The time of the last "not ready" line per pod name. */
    var logCache: map<string, int>

    constructor ()
      ensures logCache == map[]
    {
      logCache := map[];
    }

    /** shouldLogPodNotReady, with the clock passed in. */
    method ShouldLogPodNotReady(podName: string, now: int) returns (log: bool)
      modifies this
      ensures log == LogDue(old(logCache), podName, now)
      ensures logCache == if log then old(logCache)[podName := now] else old(logCache)
    {
      if podName !in logCache || now - logCache[podName] > LogInterval {
        logCache := logCache[podName := now];
        return true;
      }
      return false;
    }

    /**
     * Reconcile. `got` is the pod read (None: missing or unreadable, both
     * skipped); `updateOk` is whether the Update call succeeds. `written` is
     * the pod handed to Update.
     */
    method Reconcile(namespace: string, got: Option<LabelledPod>, updateOk: bool, now: int)
      returns (written: Option<LabelledPod>, res: LabelResult)
      modifies this
      ensures written == LabelUpdate(namespace, got)
      ensures res == UpdateFailed <==> written.Some? && !updateOk
      ensures (!IsSystemNamespace(namespace) && got.Some? && !IsPodReady(got.value)) ==>
                logCache == if LogDue(old(logCache), got.value.name, now) then old(logCache)[got.value.name := now] else old(logCache)
      ensures (IsSystemNamespace(namespace) || got.None? || IsPodReady(got.value)) ==> logCache == old(logCache)
    {
      if IsSystemNamespace(namespace) {
        return None, Done;
      }
      if got.None? {
        return None, Done;
      }
      var pod := got.value;
      if !IsPodReady(pod) {
        var _ := ShouldLogPodNotReady(pod.name, now);
        return None, Done;
      }
      if HasRequiredLabels(pod) {
        return None, Done;
      }
      written := Some(AddLabels(pod));
      res := if updateOk then Done else UpdateFailed;
    }
  }
}
