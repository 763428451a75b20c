/**
 * The config syncer: a ConfigMap labelled for syncing is copied into every
 * namespace listed (comma-separated) in its target-namespace annotation,
 * under its own name or the one its target-name annotation gives. A missing
 * copy is created; an existing one is rewritten when its data differs.
 *
 * The cluster's ConfigMaps are a map from (namespace, name) to ConfigMap in
 * the reconciler; reads of the keys in `failingReads` fail with an error
 * other than not-found, and writes to the keys in `failingWrites` fail.
 */
module ConfigSyncer {
  import opened Kube

  const SyncLabel := "config-syncer/enabled"
  const TargetNamespaceAnnotation := "config-syncer/target-namespace"
  const TargetNameAnnotation := "config-syncer/target-name"
  const SyncedLabel := "config-syncer/synced"
  const SourceAnnotation := "config-syncer/source"

  type Bytes = seq<bv8>

  datatype ConfigMap = ConfigMap(
    name: string,
    namespace: string,
    labels: StringMap,
    annotations: StringMap,
    data: StringMap,
    binaryData: map<string, Bytes>)

  type Key = (string, string)

  /** shouldSyncConfigMap: the sync label is present, whatever its value. */
  predicate ShouldSyncConfigMap(cm: ConfigMap)
  {
    SyncLabel in cm.labels
  }

  /** hasSyncLabelChanged. */
  predicate HasSyncLabelChanged(before: ConfigMap, after: ConfigMap)
  {
    ShouldSyncConfigMap(before) != ShouldSyncConfigMap(after)
  }

  // ---------------------------------------------------------------------
  // getTargetNamespaces

  /** The trimmed comma-separated entries of the target-namespace annotation; none without it. */
  function TargetNamespacesOf(cm: ConfigMap): (r: seq<string>)
    ensures TargetNamespaceAnnotation !in cm.annotations ==> r == []
    ensures TargetNamespaceAnnotation in cm.annotations ==>
              var parts := Split(cm.annotations[TargetNamespaceAnnotation], ',');
              |r| == |parts| && forall i :: 0 <= i < |r| ==> r[i] == TrimSpace(parts[i])
  {
    if TargetNamespaceAnnotation !in cm.annotations then []
    else
      var parts := Split(cm.annotations[TargetNamespaceAnnotation], ',');
      seq(|parts|, i requires 0 <= i < |parts| => TrimSpace(parts[i]))
  }

  /** Trimming only drops characters. */
  lemma TrimKeepsOut(p: string, c: char)
    requires c !in p
    ensures c !in TrimSpace(p)
  {
    var t := TrimSpace(p);
    TrimSpaceShape(p);
    var o :| OccursAt(p, t, o);
  }

  /**
   * With the annotation present there is one entry per comma plus one, in
   * order, and no entry holds a comma.
   */
  lemma TargetNamespacesCount(cm: ConfigMap)
    requires TargetNamespaceAnnotation in cm.annotations
    ensures |TargetNamespacesOf(cm)| == Count(cm.annotations[TargetNamespaceAnnotation], ',') + 1
    ensures forall i :: 0 <= i < |TargetNamespacesOf(cm)| ==> ',' !in TargetNamespacesOf(cm)[i]
  {
    var parts := Split(cm.annotations[TargetNamespaceAnnotation], ',');
    SplitPieces(cm.annotations[TargetNamespaceAnnotation], ',');
    forall i | 0 <= i < |parts| ensures ',' !in TrimSpace(parts[i]) {
      TrimKeepsOut(parts[i], ',');
    }
  }

  /** getTargetNamespaces: split, then trim each entry in place. */
  method GetTargetNamespaces(cm: ConfigMap) returns (namespaces: seq<string>)
    ensures namespaces == TargetNamespacesOf(cm)
  {
    if TargetNamespaceAnnotation !in cm.annotations {
      return [];
    }
    var parts := Split(cm.annotations[TargetNamespaceAnnotation], ',');
    var a := new string[|parts|](i requires 0 <= i < |parts| => parts[i]);
    var i := 0;
    while i < a.Length
      invariant 0 <= i <= a.Length
      invariant forall k :: 0 <= k < i ==> a[k] == TrimSpace(parts[k])
      invariant forall k :: i <= k < a.Length ==> a[k] == parts[k]
    {
      a[i] := TrimSpace(a[i]);
      i := i + 1;
    }
    namespaces := a[..];
  }

  /** The comparison loop of hasTargetNamespaceChanged: lengths first, then position by position. */
  method ListsDiffer(oldTarget: seq<string>, newTarget: seq<string>) returns (changed: bool)
    ensures changed <==> oldTarget != newTarget
  {
    if |oldTarget| != |newTarget| {
      return true;
    }
    var i := 0;
    while i < |oldTarget|
      invariant 0 <= i <= |oldTarget|
      invariant oldTarget[..i] == newTarget[..i]
    {
      if i >= |newTarget| || oldTarget[i] != newTarget[i] {
        return true;
      }
      i := i + 1;
    }
    assert oldTarget == oldTarget[..i] && newTarget == newTarget[..i];
    return false;
  }

  /** hasTargetNamespaceChanged. */
  method HasTargetNamespaceChanged(before: ConfigMap, after: ConfigMap) returns (changed: bool)
    ensures changed <==> TargetNamespacesOf(before) != TargetNamespacesOf(after)
  {
    var oldTarget := GetTargetNamespaces(before);
    var newTarget := GetTargetNamespaces(after);
    changed := ListsDiffer(oldTarget, newTarget);
  }

  // ---------------------------------------------------------------------
  // Target name and contents

  /** getTargetConfigMapName: the target-name annotation whenever present, even empty. */
  function TargetName(src: ConfigMap): (r: string)
    ensures TargetNameAnnotation in src.annotations ==> r == src.annotations[TargetNameAnnotation]
    ensures TargetNameAnnotation !in src.annotations ==> r == src.name
  {
    if TargetNameAnnotation in src.annotations then src.annotations[TargetNameAnnotation] else src.name
  }

  /** "namespace/name" of the source. */
  function SourceRef(src: ConfigMap): string
  {
    src.namespace + "/" + src.name
  }

  /** createTargetConfigMap. */
  function CreateTarget(src: ConfigMap, namespace: string, name: string): (r: ConfigMap)
    ensures r.name == name && r.namespace == namespace
    ensures r.labels == map[SyncedLabel := "true"]
    ensures r.annotations == map[SourceAnnotation := SourceRef(src)]
    ensures r.data == src.data && r.binaryData == src.binaryData
  {
    ConfigMap(name, namespace, map[SyncedLabel := "true"], map[SourceAnnotation := SourceRef(src)], src.data, src.binaryData)
  }

  /** updateTargetConfigMap's rewrite: the source's data, the source annotation set, all else kept. */
  function UpdateTarget(src: ConfigMap, target: ConfigMap): (r: ConfigMap)
    ensures r.data == src.data && r.binaryData == src.binaryData
    ensures r.name == target.name && r.namespace == target.namespace && r.labels == target.labels
    ensures SourceAnnotation in r.annotations && r.annotations[SourceAnnotation] == SourceRef(src)
    ensures forall k :: k != SourceAnnotation ==> (k in r.annotations <==> k in target.annotations)
    ensures forall k :: k in target.annotations && k != SourceAnnotation ==> r.annotations[k] == target.annotations[k]
  {
    target.(data := src.data, binaryData := src.binaryData,
            annotations := target.annotations[SourceAnnotation := SourceRef(src)])
  }

  // ---------------------------------------------------------------------
  // configMapsEqual

  /** A missing byte value reads as an empty one, as string(nil) does. */
  function LookupBytes(m: map<string, Bytes>, key: string): Bytes
  {
    if key in m then m[key] else []
  }

  /** configMapsEqual as written: equal sizes, and each source value matches the target's value read with a zero default. */
  predicate LooselyEqual(source: ConfigMap, target: ConfigMap)
  {
    |source.data| == |target.data| &&
    (forall k :: k in source.data ==> Lookup(target.data, k) == source.data[k]) &&
    |source.binaryData| == |target.binaryData| &&
    (forall k :: k in source.binaryData ==> LookupBytes(target.binaryData, k) == source.binaryData[k])
  }

  /** The first loop of configMapsEqual: every source key reads the same value from the target. */
  method DataMatches(source: StringMap, target: StringMap) returns (eq: bool)
    ensures eq <==> forall k :: k in source ==> Lookup(target, k) == source[k]
  {
    var keys := source.Keys;
    while keys != {}
      invariant keys <= source.Keys
      invariant forall k :: k in source && k !in keys ==> Lookup(target, k) == source[k]
      decreases |keys|
    {
      var k :| k in keys;
      if Lookup(target, k) != source[k] {
        return false;
      }
      keys := keys - {k};
    }
    return true;
  }

  /** The second loop of configMapsEqual, over the binary data. */
  method BinaryDataMatches(source: map<string, Bytes>, target: map<string, Bytes>) returns (eq: bool)
    ensures eq <==> forall k :: k in source ==> LookupBytes(target, k) == source[k]
  {
    var keys := source.Keys;
    while keys != {}
      invariant keys <= source.Keys
      invariant forall k :: k in source && k !in keys ==> LookupBytes(target, k) == source[k]
      decreases |keys|
    {
      var k :| k in keys;
      if LookupBytes(target, k) != source[k] {
        return false;
      }
      keys := keys - {k};
    }
    return true;
  }

  /** configMapsEqual, as the controller writes it. */
  method ConfigMapsEqualAsWritten(source: ConfigMap, target: ConfigMap) returns (eq: bool)
    ensures eq == LooselyEqual(source, target)
  {
    if |source.data| != |target.data| {
      return false;
    }
    eq := DataMatches(source.data, target.data);
    if !eq {
      return false;
    }
    if |source.binaryData| != |target.binaryData| {
      return false;
    }
    eq := BinaryDataMatches(source.binaryData, target.binaryData);
  }

  /**
   * The zero-value read lets a source key whose value is empty match a
   * target that lacks the key: two ConfigMaps with different data compare
   * equal, and the stale target is never rewritten.
   */
  lemma LooselyEqualMissesMissingKey()
    ensures var src := ConfigMap("cfg", "default", map[], map[], map["a" := ""], map[]);
            var tgt := ConfigMap("cfg", "team", map[], map[], map["b" := "x"], map[]);
            LooselyEqual(src, tgt) && src.data != tgt.data
  {
    var src := ConfigMap("cfg", "default", map[], map[], map["a" := ""], map[]);
    var tgt := ConfigMap("cfg", "team", map[], map[], map["b" := "x"], map[]);
    assert "a" !in tgt.data;
    assert |map["a" := ""]| == 1 && |map["b" := "x"]| == 1;
    assert src.data["a"] == "";
    assert src.data != tgt.data by { assert "a" in src.data; }
  }

  /** Two maps of the same size, the first contained in the second, are equal. */
  lemma SameSizeSubmap<V>(a: map<string, V>, b: map<string, V>)
    requires |a| == |b|
    requires forall k :: k in a ==> k in b && b[k] == a[k]
    ensures a == b
  {
    assert a.Keys <= b.Keys;
    var extra := b.Keys - a.Keys;
    assert b.Keys == a.Keys + extra;
    assert |b.Keys| == |a.Keys| + |extra|;
    assert |extra| == 0;
    assert extra == {};
  }

  /** The comparison with a missing key counted as a difference: equality of the data maps. */
  method ConfigMapsEqual(source: ConfigMap, target: ConfigMap) returns (eq: bool)
    ensures eq <==> source.data == target.data && source.binaryData == target.binaryData
  {
    if |source.data| != |target.data| {
      return false;
    }
    var keys := source.data.Keys;
    while keys != {}
      invariant keys <= source.data.Keys
      invariant forall k :: k in source.data && k !in keys ==> k in target.data && target.data[k] == source.data[k]
      decreases |keys|
    {
      var k :| k in keys;
      if k !in target.data || target.data[k] != source.data[k] {
        return false;
      }
      keys := keys - {k};
    }
    SameSizeSubmap(source.data, target.data);
    if |source.binaryData| != |target.binaryData| {
      return false;
    }
    var bkeys := source.binaryData.Keys;
    while bkeys != {}
      invariant bkeys <= source.binaryData.Keys
      invariant forall k :: k in source.binaryData && k !in bkeys ==>
                  k in target.binaryData && target.binaryData[k] == source.binaryData[k]
      decreases |bkeys|
    {
      var k :| k in bkeys;
      if k !in target.binaryData || target.binaryData[k] != source.binaryData[k] {
        return false;
      }
      bkeys := bkeys - {k};
    }
    SameSizeSubmap(source.binaryData, target.binaryData);
    return true;
  }

  // ---------------------------------------------------------------------
  // syncConfigMap and Reconcile as values

  predicate SameData(a: ConfigMap, b: ConfigMap)
  {
    a.data == b.data && a.binaryData == b.binaryData
  }

  /**
   * The test updateTargetConfigMap makes before rewriting an existing
   * target: with `strict` false it is configMapsEqual as written, with
   * `strict` true the corrected comparison, which asks for identical data.
   */
  predicate UpToDate(strict: bool, src: ConfigMap, target: ConfigMap)
  {
    if strict then SameData(src, target) else LooselyEqual(src, target)
  }

  /** A target holding exactly the source's data passes either comparison. */
  lemma SameDataUpToDate(strict: bool, src: ConfigMap, target: ConfigMap)
    requires SameData(target, src)
    ensures UpToDate(strict, src, target)
  {
  }

  /** The ConfigMap syncConfigMap writes for one namespace, given what it finds there; None: no write. */
  function SyncWrite(strict: bool, src: ConfigMap, namespace: string, existing: Option<ConfigMap>): (r: Option<ConfigMap>)
    ensures r.Some? ==> SameData(r.value, src)
    ensures existing.None? ==> r.Some? && r.value.name == TargetName(src) && r.value.namespace == namespace
    ensures existing.Some? ==> (r.None? <==> UpToDate(strict, src, existing.value))
  {
    match existing
    case None => Some(CreateTarget(src, namespace, TargetName(src)))
    case Some(t) => if UpToDate(strict, src, t) then None else Some(UpdateTarget(src, t))
  }

  function Find(store: map<Key, ConfigMap>, key: Key): Option<ConfigMap>
  {
    if key in store then Some(store[key]) else None
  }

  /**
   * The keys whose Get fails with an error other than not-found, and the
   * keys whose Create or Update fails.
   */
  datatype Faults = Faults(unreadable: set<Key>, unwritable: set<Key>)

  /**
   * syncConfigMap against a store: the store afterwards and whether it
   * succeeded. A failed read of the target is returned as an error before
   * any comparison.
   */
  function SyncOne(strict: bool, store: map<Key, ConfigMap>, failing: Faults, src: ConfigMap, namespace: string): (map<Key, ConfigMap>, bool)
  {
    var key := (namespace, TargetName(src));
    if key in failing.unreadable then (store, false)
    else
      match SyncWrite(strict, src, namespace, Find(store, key))
      case None => (store, true)
      case Some(w) => if key in failing.unwritable then (store, false) else (store[key := w], true)
  }

  /** The Reconcile loop over the target namespaces, stopping at the first failure. */
  function SyncAll(strict: bool, store: map<Key, ConfigMap>, failing: Faults, src: ConfigMap, namespaces: seq<string>): (map<Key, ConfigMap>, bool)
    decreases |namespaces|
  {
    if |namespaces| == 0 then (store, true)
    else
      var (s1, ok) := SyncOne(strict, store, failing, src, namespaces[0]);
      if !ok then (s1, false) else SyncAll(strict, s1, failing, src, namespaces[1..])
  }

  /**
   * A successful sync leaves, in every target namespace, a ConfigMap under
   * the target name that passes the comparison in use: with the corrected
   * comparison it holds exactly the source's data, as written it only
   * compares loosely equal. Only those keys are touched.
   */
  lemma {:induction false} SyncAllCopies(strict: bool, store: map<Key, ConfigMap>, failing: Faults, src: ConfigMap, namespaces: seq<string>)
    ensures var (s, ok) := SyncAll(strict, store, failing, src, namespaces);
            ok ==> forall ns :: ns in namespaces ==> (ns, TargetName(src)) in s && UpToDate(strict, src, s[(ns, TargetName(src))])
    ensures var (s, ok) := SyncAll(true, store, failing, src, namespaces);
            ok ==> forall ns :: ns in namespaces ==> (ns, TargetName(src)) in s && SameData(s[(ns, TargetName(src))], src)
    ensures var s := SyncAll(strict, store, failing, src, namespaces).0;
            forall ns :: ns !in namespaces ==> Find(s, (ns, TargetName(src))) == Find(store, (ns, TargetName(src)))
    ensures var s := SyncAll(strict, store, failing, src, namespaces).0;
            forall key: Key :: key.1 != TargetName(src) ==> Find(s, key) == Find(store, key)
    decreases |namespaces|
  {
    SyncAllReaches(strict, store, failing, src, namespaces);
    SyncAllReaches(true, store, failing, src, namespaces);
    SyncAllFrame(strict, store, failing, src, namespaces);
  }

  /** The induction behind SyncAllCopies, for one comparison. */
  lemma {:induction false} SyncAllReaches(strict: bool, store: map<Key, ConfigMap>, failing: Faults, src: ConfigMap, namespaces: seq<string>)
    ensures var (s, ok) := SyncAll(strict, store, failing, src, namespaces);
            ok ==> forall ns :: ns in namespaces ==> (ns, TargetName(src)) in s && UpToDate(strict, src, s[(ns, TargetName(src))])
    decreases |namespaces|
  {
    if |namespaces| > 0 {
      var (s1, ok1) := SyncOne(strict, store, failing, src, namespaces[0]);
      var key := (namespaces[0], TargetName(src));
      if ok1 {
        if key in store && UpToDate(strict, src, store[key]) {
          assert s1 == store;
        } else {
          assert SameData(s1[key], src);
          SameDataUpToDate(strict, src, s1[key]);
        }
        SyncAllReaches(strict, s1, failing, src, namespaces[1..]);
        SyncAllFrame(strict, s1, failing, src, namespaces[1..]);
        var (s, ok) := SyncAll(strict, s1, failing, src, namespaces[1..]);
        assert forall ns :: ns in namespaces ==> ns == namespaces[0] || ns in namespaces[1..];
        if ok && namespaces[0] !in namespaces[1..] {
          assert Find(s, key) == Find(s1, key);
        }
      }
    }
  }

  /** A sync touches only the target name in the target namespaces. */
  lemma {:induction false} SyncAllFrame(strict: bool, store: map<Key, ConfigMap>, failing: Faults, src: ConfigMap, namespaces: seq<string>)
    ensures var s := SyncAll(strict, store, failing, src, namespaces).0;
            forall ns :: ns !in namespaces ==> Find(s, (ns, TargetName(src))) == Find(store, (ns, TargetName(src)))
    ensures var s := SyncAll(strict, store, failing, src, namespaces).0;
            forall key: Key :: key.1 != TargetName(src) ==> Find(s, key) == Find(store, key)
    decreases |namespaces|
  {
    if |namespaces| > 0 {
      var (s1, ok1) := SyncOne(strict, store, failing, src, namespaces[0]);
      if ok1 {
        SyncAllFrame(strict, s1, failing, src, namespaces[1..]);
        assert forall ns :: ns in namespaces[1..] ==> ns in namespaces;
      }
    }
  }

  /**
   * A target whose read fails stops the loop with an error and no write,
   * even when the target is already up to date.
   */
  lemma UnreadableTargetStopsSync(strict: bool, store: map<Key, ConfigMap>, failing: Faults, src: ConfigMap, namespaces: seq<string>)
    requires |namespaces| > 0 && (namespaces[0], TargetName(src)) in failing.unreadable
    ensures SyncAll(strict, store, failing, src, namespaces) == (store, false)
  {
  }

  /** Syncing twice writes nothing the second time. */
  lemma SyncOneSettles(strict: bool, store: map<Key, ConfigMap>, failing: Faults, src: ConfigMap, namespace: string)
    requires SyncOne(strict, store, failing, src, namespace).1
    ensures var s := SyncOne(strict, store, failing, src, namespace).0;
            SyncOne(strict, s, failing, src, namespace) == (s, true)
  {
    var key := (namespace, TargetName(src));
    var s := SyncOne(strict, store, failing, src, namespace).0;
    if s != store {
      SameDataUpToDate(strict, src, s[key]);
    }
  }

  /** A ConfigMap labelled for syncing into namespace "team". */
  function StaleSource(): ConfigMap
  {
    ConfigMap("cfg", "default", map[SyncLabel := "true"], map[TargetNamespaceAnnotation := "team"], map["a" := ""], map[])
  }

  /** The stale source is labelled for syncing into "team" alone. */
  lemma StaleSourceTargets()
    ensures ShouldSyncConfigMap(StaleSource()) && TargetNamespacesOf(StaleSource()) == ["team"]
  {
    SplitWithoutSeparator("team", ',');
    assert TrimSpace("team") == "team";
  }

  /** A store holding, in namespace "team", the stale copy of LooselyEqualMissesMissingKey. */
  function StaleStore(): map<Key, ConfigMap>
  {
    map[("team", "cfg") := ConfigMap("cfg", "team", map[], map[], map["b" := "x"], map[])]
  }

  /**
   * The stale copy of LooselyEqualMissesMissingKey, left in place by
   * Reconcile as written, which reports success: the target keeps data
   * the source does not have. The corrected comparison rewrites it with
   * the source's data.
   */
  lemma StaleTargetSurvivesSync()
    ensures ShouldSyncConfigMap(StaleSource()) && TargetNamespacesOf(StaleSource()) == ["team"]
    ensures SyncAll(false, StaleStore(), Faults({}, {}), StaleSource(), ["team"]) == (StaleStore(), true)
    ensures !SameData(StaleStore()[("team", "cfg")], StaleSource())
    ensures var (s, ok) := SyncAll(true, StaleStore(), Faults({}, {}), StaleSource(), ["team"]);
            ok && ("team", "cfg") in s && SameData(s[("team", "cfg")], StaleSource())
  {
    var src := StaleSource();
    var tgt := StaleStore()[("team", "cfg")];
    var store := StaleStore();
    StaleSourceTargets();
    assert LooselyEqual(src, tgt) by {
      LooselyEqualMissesMissingKey();
    }
    assert !SameData(tgt, src) by {
      assert "a" in src.data && "a" !in tgt.data;
    }
    assert TargetName(src) == "cfg";
    assert SyncAll(false, store, Faults({}, {}), src, ["team"]) == (store, true) by {
      assert SyncOne(false, store, Faults({}, {}), src, "team") == (store, true);
    }
    var fixed := store[("team", "cfg") := UpdateTarget(src, tgt)];
    assert SyncAll(true, store, Faults({}, {}), src, ["team"]) == (fixed, true) by {
      assert Find(store, ("team", "cfg")) == Some(tgt);
      assert !UpToDate(true, src, tgt) by {
        assert "a" in src.data && "a" !in tgt.data;
      }
      assert SyncWrite(true, src, "team", Find(store, ("team", "cfg"))) == Some(UpdateTarget(src, tgt));
      assert SyncOne(true, store, Faults({}, {}), src, "team") == (fixed, true);
    }
  }

  datatype SyncResult = Synced | Skipped | SyncError

  class ConfigMapReconciler {
    /** The ConfigMaps of the cluster by (namespace, name). */
    var store: map<Key, ConfigMap>
    /** Keys whose Get fails with an error other than not-found. */
    const failingReads: set<Key>
    /** Keys whose Create or Update fails. */
    const failingWrites: set<Key>

    constructor (initial: map<Key, ConfigMap>, unreadable: set<Key>, unwritable: set<Key>)
      ensures store == initial && failingReads == unreadable && failingWrites == unwritable
    {
      store := initial;
      failingReads := unreadable;
      failingWrites := unwritable;
    }

    /** syncConfigMap: create the target if missing, otherwise update it when its data differs. */
    method SyncConfigMap(src: ConfigMap, namespace: string) returns (ok: bool)
      modifies this
      ensures (store, ok) == SyncOne(false, old(store), Faults(failingReads, failingWrites), src, namespace)
    {
      var name := TargetName(src);
      var key := (namespace, name);
      if key in failingReads {
        return false;
      }
      if key !in store {
        if key in failingWrites {
          return false;
        }
        store := store[key := CreateTarget(src, namespace, name)];
        return true;
      }
      var target := store[key];
      var eq := ConfigMapsEqualAsWritten(src, target);
      if eq {
        return true;
      }
      if key in failingWrites {
        return false;
      }
      store := store[key := UpdateTarget(src, target)];
      return true;
    }

    /** Reconcile for one source ConfigMap read with Get. */
    method Reconcile(got: Fetch<ConfigMap>) returns (res: SyncResult)
      modifies this
      ensures got.FetchFailed? ==> res == SyncError && store == old(store)
      ensures got.NotFound? ==> res == Skipped && store == old(store)
      ensures got.Found? && (!ShouldSyncConfigMap(got.value) || TargetNamespacesOf(got.value) == []) ==>
                res == Skipped && store == old(store)
      ensures got.Found? && ShouldSyncConfigMap(got.value) && TargetNamespacesOf(got.value) != [] ==>
                var (s, ok) := SyncAll(false, old(store), Faults(failingReads, failingWrites), got.value, TargetNamespacesOf(got.value));
                store == s && (res == Synced <==> ok) && (res == SyncError <==> !ok)
    {
      if got.FetchFailed? {
        return SyncError;
      }
      if got.NotFound? {
        return Skipped;
      }
      var src := got.value;
      if !ShouldSyncConfigMap(src) {
        return Skipped;
      }
      var namespaces := GetTargetNamespaces(src);
      if |namespaces| == 0 {
        return Skipped;
      }
      ghost var goal := SyncAll(false, store, Faults(failingReads, failingWrites), src, namespaces);
      var i := 0;
      while i < |namespaces|
        invariant 0 <= i <= |namespaces|
        invariant SyncAll(false, store, Faults(failingReads, failingWrites), src, namespaces[i..]) == goal
      {
        assert namespaces[i..][1..] == namespaces[i + 1..];
        var ok := SyncConfigMap(src, namespaces[i]);
        if !ok {
          return SyncError;
        }
        i := i + 1;
      }
      return Synced;
    }
  }
}
