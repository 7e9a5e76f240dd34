/**
 * controllers/helmchart_controller.go: the HelmChart reconciler. It keeps a
 * finalizer on the chart, obtains the rendered manifests (from the cache
 * secret the admission webhook wrote, or from the Helm renderer), applies
 * every object, gives the ones in the chart's namespace a controller
 * reference and records the others in a HelmDog.
 */
module HelmChartController {
  import opened Wrappers
  import opened Api
  import opened Store
  import Helm
  import ManifestCodec
  import StringUtil
  import HelmDogController

  /**
   * What the reconciler reads besides the cluster: the finalizer name, the
   * operator namespace, WEBHOOKS_ENABLED, the cache secret naming scheme,
   * the renderer, the YAML parser, the RESTMapper and the owner-reference
   * setter (its error, if it refuses).
   */
  datatype ChartEnv = ChartEnv(
    finalizer: string,
    operatorNamespace: string,
    webhooksEnabled: string,
    secretName: (string, string) -> string,
    engine: Helm.Engine,
    parse: string -> Unstructured,
    mapper: Mapper,
    ownerError: Unstructured -> Option<string>)

  const NoSecretMessage := "webhook enabled, but no manifests secret found"
  const BadSecretMessage := "webhook enabled, but manifests secret format is incorrect"

  /** The secret key holding the cached manifests. */
  const ManifestsKey := "manifests"

  /** The spec of a stored HelmChart; the zero value for any other body. */
  function ChartSpecOf(o: Obj): HelmChartSpec {
    if o.body.Chart? then o.body.chartSpec else HelmChartSpec("", "")
  }

  /** The data of a stored secret; empty for any other body. */
  function SecretData(o: Obj): map<string, string> {
    if o.body.Secret? then o.body.data else map[]
  }

  function CacheKey(env: ChartEnv, req: NamespacedName): Resource {
    SecretKey(env.secretName(req.name, req.namespace), env.operatorNamespace)
  }

  /** An object ready to apply, and whether it goes into the HelmDog rather than getting an owner reference. */
  datatype Placed = Placed(obj: Unstructured, tracked: bool)

  /** Lines 143-172 for one manifest: parse, map, default the namespace, then owner reference or tracking. */
  function Prepare(env: ChartEnv, req: NamespacedName, m: string): (r: Result<Placed, string>)
    ensures var parsed := env.parse(m);
      var mapping := env.mapper(parsed.group, parsed.kind, parsed.version);
      && (mapping.Err? ==> r == Err(mapping.error))
      && (mapping.Ok? ==>
        var placed := if parsed.namespace == "" && mapping.value.scope == NamespaceScope then parsed.(namespace := req.namespace) else parsed;
        && (r.Err? <==> placed.namespace == req.namespace && env.ownerError(placed).Some?)
        && (r.Err? ==> r.error == env.ownerError(placed).value))
      && (r.Ok? ==> (mapping.Ok?
        && r.value.obj == parsed.(namespace := r.value.obj.namespace, controller := r.value.obj.controller)
        && r.value.obj.namespace == (if parsed.namespace == "" && mapping.value.scope == NamespaceScope then req.namespace else parsed.namespace)
        && (r.value.tracked <==> r.value.obj.namespace != req.namespace)
        && (r.value.tracked ==> r.value.obj.controller == parsed.controller)
        && (!r.value.tracked ==> r.value.obj.controller == Some(HelmChartKey(req)))))
  {
    var obj := env.parse(m);
    var mapping := env.mapper(obj.group, obj.kind, obj.version);
    if mapping.Err? then Err(mapping.error)
    else
      var placed := if obj.namespace == "" && mapping.value.scope == NamespaceScope then obj.(namespace := req.namespace) else obj;
      if placed.namespace == req.namespace then
        var e := env.ownerError(placed);
        if e.Some? then Err(e.value) else Ok(Placed(placed.(controller := Some(HelmChartKey(req))), false))
      else Ok(Placed(placed, true))
  }

  /** The resources the loop records for the HelmDog, computed without the cluster, in manifest order. */
  function Tracked(env: ChartEnv, req: NamespacedName, ms: seq<string>): seq<Resource>
    decreases |ms|
  {
    if |ms| == 0 then []
    else
      var p := Prepare(env, req, ms[0]);
      (if p.Ok? && p.value.tracked then [KeyOf(p.value.obj)] else []) + Tracked(env, req, ms[1..])
  }

  datatype Applying = Applying(state: State, resources: seq<Resource>, err: Option<string>)

  /** One iteration of the loop of lines 142-184: prepare, then apply; the resource it records, if tracked. */
  function ApplyStep(env: ChartEnv, s: State, req: NamespacedName, m: string): (r: Applying)
    ensures r.err.Some? ==> r.resources == []
    ensures Prepare(env, req, m).Err? ==> r == Applying(s, [], Some(Prepare(env, req, m).error))
  {
    var p := Prepare(env, req, m);
    if p.Err? then Applying(s, [], Some(p.error))
    else
      var a := PatchOp(s, KeyOf(p.value.obj), AsObj(p.value.obj));
      if a.error.Some? then Applying(a.state, [], AckMessage(a))
      else Applying(a.state, if p.value.tracked then [KeyOf(p.value.obj)] else [], None)
  }

  /** The whole loop: objects applied in order; the first failure ends it. */
  function ApplyAll(env: ChartEnv, s: State, req: NamespacedName, ms: seq<string>): (r: Applying)
    ensures r.err.Some? ==> r.resources == []
    decreases |ms|
  {
    if |ms| == 0 then Applying(s, [], None)
    else
      var o := ApplyStep(env, s, req, ms[0]);
      if o.err.Some? then o else Then(o, ApplyAll(env, o.state, req, ms[1..]))
  }

  /** One part of the loop followed by the next: the first failure wins, otherwise the resources concatenate. */
  function Then(first: Applying, next: Applying): Applying {
    if first.err.Some? then first
    else if next.err.Some? then next
    else Applying(next.state, first.resources + next.resources, None)
  }

  /** The HelmDog the reconciler applies (lines 186-214): the tracked resources and the finalizer. */
  function DogObj(env: ChartEnv, resources: seq<Resource>): Obj {
    Obj(map[], [env.finalizer], false, Dog(resources, []))
  }

  /** Lines 186-214: the HelmDog is applied only when some resource was recorded. */
  function DogStep(env: ChartEnv, s: State, req: NamespacedName, resources: seq<Resource>): Outcome {
    if |resources| == 0 then Outcome(s, None)
    else
      var p := PatchOp(s, HelmDogKey(req), DogObj(env, resources));
      Outcome(p.state, AckMessage(p))
  }

  datatype Fetched = Fetched(state: State, manifests: Result<seq<string>, string>)

  /** Lines 105-137: the manifest list, from the cache secret or from the renderer. */
  function FetchManifests(env: ChartEnv, s: State, req: NamespacedName, spec: HelmChartSpec): (r: Fetched)
    ensures r.state.objects == s.objects
    ensures env.webhooksEnabled != "true" ==> r == Fetched(s, Helm.Manifests(env.engine, req.name, req.namespace, spec.chartPath, spec.values))
    ensures env.webhooksEnabled == "true" && PopFault(s).fault.None? ==> var k := CacheKey(env, req);
      && (k !in s.objects ==> r.manifests == Err(NoSecretMessage))
      && (k in s.objects && ManifestsKey !in SecretData(s.objects[k]) ==> r.manifests == Err(BadSecretMessage))
      && (k in s.objects && ManifestsKey in SecretData(s.objects[k]) ==> r.manifests == Ok(ManifestCodec.Decode(SecretData(s.objects[k])[ManifestsKey])))
    ensures env.webhooksEnabled == "true" && PopFault(s).fault.Some? ==>
      r.manifests == Err(if PopFault(s).fault.value.NotFound? then NoSecretMessage else Message(PopFault(s).fault.value))
  {
    if env.webhooksEnabled == "true" then
      var g := GetOp(s, CacheKey(env, req));
      if g.result.Err? then Fetched(g.state, Err(if g.result.error.NotFound? then NoSecretMessage else Message(g.result.error)))
      else if ManifestsKey in SecretData(g.result.value) then Fetched(g.state, Ok(ManifestCodec.Decode(SecretData(g.result.value)[ManifestsKey])))
      else Fetched(g.state, Err(BadSecretMessage))
    else Fetched(s, Helm.Manifests(env.engine, req.name, req.namespace, spec.chartPath, spec.values))
  }

  /** cleanResources (lines 219-226): delete the HelmDog of the same name, ignoring NotFound. */
  function CleanSpec(s: State, req: NamespacedName): Outcome {
    var d := DeleteOp(s, HelmDogKey(req));
    Outcome(d.state, if d.error.Some? then IgnoreNotFound(d.error.value) else None)
  }

  /** Lines 97-103: the Update that adds the finalizer, when it is missing. */
  function AddFinalizerSpec(env: ChartEnv, s: State, key: Resource, cr: Obj): (r: Outcome)
    ensures env.finalizer in cr.finalizers ==> r == Outcome(s, None)
    ensures r.err.None? && key in s.objects && s.objects[key] == cr ==> key in r.state.objects && env.finalizer in r.state.objects[key].finalizers
  {
    if env.finalizer in cr.finalizers then Outcome(s, None)
    else
      var u := UpdateOp(s, key, cr.(finalizers := cr.finalizers + [env.finalizer]));
      Outcome(u.state, AckMessage(u))
  }

  /** Reconcile (lines 64-217). */
  function ReconcileSpec(env: ChartEnv, s: State, req: NamespacedName): Outcome {
    var key := HelmChartKey(req);
    var g := GetOp(s, key);
    if g.result.Err? then Outcome(g.state, IgnoreNotFound(g.result.error))
    else
      var cr := g.result.value;
      if cr.deleting then
        var d := CleanSpec(g.state, req);
        if d.err.Some? then d
        else if env.finalizer in cr.finalizers then
          var u := UpdateOp(d.state, key, cr.(finalizers := StringUtil.Without(cr.finalizers, env.finalizer)));
          Outcome(u.state, AckMessage(u))
        else d
      else
        var f := AddFinalizerSpec(env, g.state, key, cr);
        if f.err.Some? then f
        else
          var fetched := FetchManifests(env, f.state, req, ChartSpecOf(cr));
          if fetched.manifests.Err? then Outcome(fetched.state, Some(fetched.manifests.error))
          else
            var a := ApplyAll(env, fetched.state, req, fetched.manifests.value);
            if a.err.Some? then Outcome(a.state, a.err)
            else DogStep(env, a.state, req, a.resources)
  }

  // ---------------------------------------------------------------- methods

  method CleanResources(c: Cluster, req: NamespacedName) returns (err: Option<string>)
    modifies c
    ensures Outcome(c.Snapshot(), err) == CleanSpec(old(c.Snapshot()), req)
  {
    var e := c.Delete(HelmDogKey(req));
    err := if e.Some? then IgnoreNotFound(e.value) else None;
  }

  method GetManifestsFor(c: Cluster, env: ChartEnv, req: NamespacedName, spec: HelmChartSpec)
    returns (manifests: Result<seq<string>, string>)
    modifies c
    ensures Fetched(c.Snapshot(), manifests) == FetchManifests(env, old(c.Snapshot()), req, spec)
  {
    if env.webhooksEnabled == "true" {
      var secret := c.Get(CacheKey(env, req));
      if secret.Err? {
        if secret.error.NotFound? {
          return Err(NoSecretMessage);
        }
        return Err(Message(secret.error));
      }
      var data := SecretData(secret.value);
      if ManifestsKey in data {
        return Ok(ManifestCodec.Decode(data[ManifestsKey]));
      }
      return Err(BadSecretMessage);
    }
    manifests := Helm.GetManifests(env.engine, req.name, req.namespace, spec.chartPath, spec.values);
  }

  method ApplyManifest(c: Cluster, env: ChartEnv, req: NamespacedName, m: string)
    returns (tracked: seq<Resource>, err: Option<string>)
    modifies c
    ensures Applying(c.Snapshot(), tracked, err) == ApplyStep(env, old(c.Snapshot()), req, m)
  {
    tracked := [];
    var obj := env.parse(m);
    var mapping := env.mapper(obj.group, obj.kind, obj.version);
    if mapping.Err? {
      return [], Some(mapping.error);
    }
    if obj.namespace == "" && mapping.value.scope == NamespaceScope {
      obj := obj.(namespace := req.namespace);
    }
    if obj.namespace == req.namespace {
      var e := env.ownerError(obj);
      if e.Some? {
        return [], Some(e.value);
      }
      obj := obj.(controller := Some(HelmChartKey(req)));
    } else {
      tracked := [KeyOf(obj)];
    }
    var pe := c.Patch(KeyOf(obj), AsObj(obj));
    if pe.Some? {
      return [], Some(Message(pe.value));
    }
    err := None;
  }

  /** The apply loop; on failure it returns no resources, as Reconcile returns at once. */
  method ApplyManifests(c: Cluster, env: ChartEnv, req: NamespacedName, manifests: seq<string>)
    returns (resources: seq<Resource>, err: Option<string>)
    modifies c
    ensures Applying(c.Snapshot(), resources, err) == ApplyAll(env, old(c.Snapshot()), req, manifests)
  {
    ghost var s0 := c.Snapshot();
    resources := [];
    var i := 0;
    while i < |manifests|
      invariant 0 <= i <= |manifests|
      invariant ApplyAll(env, s0, req, manifests[..i]) == Applying(c.Snapshot(), resources, None)
    {
      ghost var before := c.Snapshot();
      var tracked, e := ApplyManifest(c, env, req, manifests[i]);
      ApplyAllExtend(env, s0, req, manifests, i);
      if e.Some? {
        ApplyAllAbort(env, s0, req, manifests, i + 1);
        return [], e;
      }
      resources := resources + tracked;
      i := i + 1;
    }
    assert manifests[..i] == manifests;
    err := None;
  }

  method Reconcile(c: Cluster, env: ChartEnv, req: NamespacedName) returns (err: Option<string>)
    modifies c
    ensures Outcome(c.Snapshot(), err) == ReconcileSpec(env, old(c.Snapshot()), req)
  {
    var key := HelmChartKey(req);
    var got := c.Get(key);
    if got.Err? {
      return IgnoreNotFound(got.error);
    }
    var cr := got.value;
    if cr.deleting {
      err := CleanResources(c, req);
      if err.Some? {
        return;
      }
      if env.finalizer in cr.finalizers {
        var u := c.Update(key, cr.(finalizers := StringUtil.Without(cr.finalizers, env.finalizer)));
        return if u.Some? then Some(Message(u.value)) else None;
      }
      return None;
    }
    if env.finalizer !in cr.finalizers {
      var u := c.Update(key, cr.(finalizers := cr.finalizers + [env.finalizer]));
      if u.Some? {
        return Some(Message(u.value));
      }
    }
    var manifests := GetManifestsFor(c, env, req, ChartSpecOf(cr));
    if manifests.Err? {
      return Some(manifests.error);
    }
    var resources;
    resources, err := ApplyManifests(c, env, req, manifests.value);
    if err.Some? {
      return;
    }
    err := None;
    if |resources| > 0 {
      var p := c.Patch(HelmDogKey(req), DogObj(env, resources));
      err := if p.Some? then Some(Message(p.value)) else None;
    }
  }

  // ----------------------------------------------------------------- lemmas

  /** Some manifest of the list is applied under key k. */
  predicate Targets(env: ChartEnv, req: NamespacedName, ms: seq<string>, k: Resource) {
    exists i :: 0 <= i < |ms| && Prepare(env, req, ms[i]).Ok? && KeyOf(Prepare(env, req, ms[i]).value.obj) == k
  }

  /** A successful apply loop records exactly the tracked resources, in manifest order. */
  lemma {:induction false} ApplyAllTracked(env: ChartEnv, s: State, req: NamespacedName, ms: seq<string>)
    requires ApplyAll(env, s, req, ms).err.None?
    ensures ApplyAll(env, s, req, ms).resources == Tracked(env, req, ms)
    decreases |ms|
  {
    if |ms| > 0 {
      ApplyAllTracked(env, ApplyStep(env, s, req, ms[0]).state, req, ms[1..]);
    }
  }

  /** Every tracked resource lies outside the chart's namespace (the others got an owner reference instead). */
  lemma {:induction false} TrackedOutsideNamespace(env: ChartEnv, req: NamespacedName, ms: seq<string>)
    ensures forall r :: r in Tracked(env, req, ms) ==> r.namespace != req.namespace
    decreases |ms|
  {
    if |ms| > 0 {
      TrackedOutsideNamespace(env, req, ms[1..]);
    }
  }

  /** The loop over a + b is the loop over a, then, only if that succeeded, the loop over b. */
  lemma {:induction false} ApplyAllConcat(env: ChartEnv, s: State, req: NamespacedName, a: seq<string>, b: seq<string>)
    ensures var x := ApplyAll(env, s, req, a);
      ApplyAll(env, s, req, a + b) == Then(x, ApplyAll(env, x.state, req, b))
    decreases |a|
  {
    var x := ApplyAll(env, s, req, a);
    if |a| == 0 {
      assert a + b == b;
      assert [] + ApplyAll(env, s, req, b).resources == ApplyAll(env, s, req, b).resources;
    } else {
      var o := ApplyStep(env, s, req, a[0]);
      var x' := ApplyAll(env, o.state, req, a[1..]);
      var all := ApplyAll(env, o.state, req, a[1..] + b);
      assert ApplyAll(env, s, req, a + b) == (if o.err.Some? then o else Then(o, all)) by {
        assert (a + b)[0] == a[0];
        assert (a + b)[1..] == a[1..] + b;
      }
      assert x == (if o.err.Some? then o else Then(o, x'));
      if o.err.None? {
        var y := ApplyAll(env, x'.state, req, b);
        assert all == Then(x', y) by {
          ApplyAllConcat(env, o.state, req, a[1..], b);
        }
        ThenAssociative(o, x', y, ApplyAll(env, x.state, req, b));
      }
    }
  }

  /** Chaining loop parts is associative; the last part only counts when the first two succeeded. */
  lemma ThenAssociative(o: Applying, x: Applying, y: Applying, y': Applying)
    requires Then(o, x).err.None? ==> y' == y
    ensures Then(o, Then(x, y)) == Then(Then(o, x), y')
  {
    if o.err.None? && x.err.None? && y.err.None? {
      assert o.resources + (x.resources + y.resources) == (o.resources + x.resources) + y.resources;
    }
  }

  /** The loop over one manifest is that manifest's step. */
  lemma ApplyAllSingle(env: ChartEnv, s: State, req: NamespacedName, m: string)
    ensures ApplyAll(env, s, req, [m]) == ApplyStep(env, s, req, m)
  {
    var o := ApplyStep(env, s, req, m);
    assert [m][1..] == [];
    assert o.resources + [] == o.resources;
  }

  /** The loop over one more manifest is the loop so far, then that manifest's step. */
  lemma ApplyAllExtend(env: ChartEnv, s: State, req: NamespacedName, ms: seq<string>, i: nat)
    requires i < |ms|
    ensures var p := ApplyAll(env, s, req, ms[..i]);
      ApplyAll(env, s, req, ms[..i + 1]) == Then(p, ApplyStep(env, p.state, req, ms[i]))
  {
    var p := ApplyAll(env, s, req, ms[..i]);
    assert ms[..i] + [ms[i]] == ms[..i + 1];
    ApplyAllConcat(env, s, req, ms[..i], [ms[i]]);
    ApplyAllSingle(env, p.state, req, ms[i]);
  }

  /** Once a prefix of the list has failed, the rest of the list is never applied. */
  lemma ApplyAllAbort(env: ChartEnv, s: State, req: NamespacedName, ms: seq<string>, i: nat)
    requires i <= |ms| && ApplyAll(env, s, req, ms[..i]).err.Some?
    ensures ApplyAll(env, s, req, ms) == ApplyAll(env, s, req, ms[..i])
  {
    assert ms[..i] + ms[i..] == ms;
    ApplyAllConcat(env, s, req, ms[..i], ms[i..]);
  }

  /** Whatever the cluster answers, the loop changes only the keys some manifest is applied under. */
  lemma {:induction false} ApplyAllFrame(env: ChartEnv, s: State, req: NamespacedName, ms: seq<string>, k: Resource)
    requires !Targets(env, req, ms, k)
    ensures k in ApplyAll(env, s, req, ms).state.objects <==> k in s.objects
    ensures k in s.objects ==> ApplyAll(env, s, req, ms).state.objects[k] == s.objects[k]
    decreases |ms|
  {
    if |ms| > 0 {
      var o := ApplyStep(env, s, req, ms[0]);
      if o.err.None? {
        assert !Targets(env, req, ms[1..], k) by {
          forall i | 0 <= i < |ms[1..]|
            ensures !(Prepare(env, req, ms[1..][i]).Ok? && KeyOf(Prepare(env, req, ms[1..][i]).value.obj) == k)
          {
            assert ms[1..][i] == ms[i + 1];
          }
        }
        ApplyAllFrame(env, o.state, req, ms[1..], k);
      }
      assert 0 < |ms|;
    }
  }

  /**
   * On a cluster whose calls all succeed, the loop keeps it so, and it fails
   * exactly when some manifest cannot be prepared.
   */
  lemma {:induction false} ApplyAllHealthy(env: ChartEnv, s: State, req: NamespacedName, ms: seq<string>)
    requires Healthy(s)
    ensures var r := ApplyAll(env, s, req, ms);
      && Healthy(r.state)
      && (r.err.None? <==> forall i :: 0 <= i < |ms| ==> Prepare(env, req, ms[i]).Ok?)
    decreases |ms|
  {
    if |ms| > 0 {
      var o := ApplyStep(env, s, req, ms[0]);
      if o.err.None? {
        ApplyAllHealthy(env, o.state, req, ms[1..]);
        if ApplyAll(env, o.state, req, ms[1..]).err.None? {
          forall i | 0 <= i < |ms|
            ensures Prepare(env, req, ms[i]).Ok?
          {
            if i > 0 { assert ms[1..][i - 1] == ms[i]; }
          }
        } else {
          assert forall i :: 0 <= i < |ms[1..]| ==> ms[1..][i] == ms[i + 1];
        }
      }
    }
  }

  /** On a cluster whose calls all succeed, a failed loop reports the error of the first manifest that cannot be prepared. */
  lemma {:induction false} ApplyAllFirstError(env: ChartEnv, s: State, req: NamespacedName, ms: seq<string>)
    requires Healthy(s) && ApplyAll(env, s, req, ms).err.Some?
    ensures
      exists i :: 0 <= i < |ms| && Prepare(env, req, ms[i]).Err?
        && ApplyAll(env, s, req, ms).err == Some(Prepare(env, req, ms[i]).error)
        && forall j :: 0 <= j < i ==> Prepare(env, req, ms[j]).Ok?
    decreases |ms|
  {
    var o := ApplyStep(env, s, req, ms[0]);
    if o.err.None? {
      ApplyAllFirstError(env, o.state, req, ms[1..]);
      var i' :| 0 <= i' < |ms[1..]| && Prepare(env, req, ms[1..][i']).Err?
        && ApplyAll(env, o.state, req, ms[1..]).err == Some(Prepare(env, req, ms[1..][i']).error)
        && forall j :: 0 <= j < i' ==> Prepare(env, req, ms[1..][j]).Ok?;
      assert ms[1..][i'] == ms[i' + 1];
      forall j | 0 <= j < i' + 1
        ensures Prepare(env, req, ms[j]).Ok?
      {
        if j > 0 { assert ms[1..][j - 1] == ms[j]; }
      }
    } else {
      assert Prepare(env, req, ms[0]).Err?;
    }
  }

  /** A stored object carries what an applied manifest declares: its body, its annotations and its finalizers. */
  predicate Carries(o: Obj, u: Unstructured) {
    && o.body == Manifest(u)
    && (forall a :: a in u.annotations ==> a in o.annotations && o.annotations[a] == u.annotations[a])
    && (forall f :: f in u.finalizers ==> f in o.finalizers)
  }

  /**
   * On a settled cluster whose calls all succeed, a manifest that prepares is
   * applied: it is stored under its key, nothing else changes and no key is lost.
   */
  lemma ApplyStepStores(env: ChartEnv, s: State, req: NamespacedName, m: string)
    requires Healthy(s) && Settled(s.objects) && Prepare(env, req, m).Ok?
    ensures var obj := Prepare(env, req, m).value.obj;
      var r := ApplyStep(env, s, req, m);
      && r.err.None?
      && Settled(r.state.objects)
      && r.state.objects.Keys == s.objects.Keys + {KeyOf(obj)}
      && Carries(r.state.objects[KeyOf(obj)], obj)
      && forall j :: j in s.objects && j != KeyOf(obj) ==> r.state.objects[j] == s.objects[j]
  {
    var obj := Prepare(env, req, m).value.obj;
    PatchSettled(s, KeyOf(obj), AsObj(obj));
  }

  /** On a settled cluster whose calls all succeed, one step keeps it so, whether or not the manifest prepares. */
  lemma ApplyStepSettled(env: ChartEnv, s: State, req: NamespacedName, m: string)
    requires Healthy(s) && Settled(s.objects)
    ensures Healthy(ApplyStep(env, s, req, m).state) && Settled(ApplyStep(env, s, req, m).state.objects)
  {
    if Prepare(env, req, m).Ok? {
      ApplyStepStores(env, s, req, m);
    }
  }

  /**
   * On a settled cluster whose calls all succeed, the loop keeps every key
   * and the cluster settled, and a loop that succeeds has stored every
   * manifest under its key.
   */
  lemma {:induction false} ApplyAllSettled(env: ChartEnv, s: State, req: NamespacedName, ms: seq<string>)
    requires Healthy(s) && Settled(s.objects)
    ensures var r := ApplyAll(env, s, req, ms);
      && Settled(r.state.objects)
      && s.objects.Keys <= r.state.objects.Keys
      && (r.err.None? ==> forall i :: 0 <= i < |ms| && Prepare(env, req, ms[i]).Ok? ==> KeyOf(Prepare(env, req, ms[i]).value.obj) in r.state.objects)
    decreases |ms|
  {
    if |ms| > 0 {
      var o := ApplyStep(env, s, req, ms[0]);
      if Prepare(env, req, ms[0]).Ok? {
        ApplyStepStores(env, s, req, ms[0]);
        ApplyAllSettled(env, o.state, req, ms[1..]);
        var rest := ApplyAll(env, o.state, req, ms[1..]);
        if rest.err.None? {
          forall i | 0 <= i < |ms| && Prepare(env, req, ms[i]).Ok?
            ensures KeyOf(Prepare(env, req, ms[i]).value.obj) in rest.state.objects
          {
            if i > 0 { assert ms[1..][i - 1] == ms[i]; }
          }
        }
      }
    }
  }

  /** A loop that succeeded began with a successful step, and the rest of the loop succeeded from there. */
  lemma ApplyAllSucceeded(env: ChartEnv, s: State, req: NamespacedName, ms: seq<string>)
    requires |ms| > 0 && ApplyAll(env, s, req, ms).err.None?
    ensures var o := ApplyStep(env, s, req, ms[0]);
      && o.err.None? && Prepare(env, req, ms[0]).Ok?
      && ApplyAll(env, o.state, req, ms[1..]).err.None?
      && ApplyAll(env, s, req, ms).state == ApplyAll(env, o.state, req, ms[1..]).state
  {
  }

  /** The first manifest's object survives the rest of a successful loop when no later manifest targets its key. */
  lemma ApplyAllStoresFirst(env: ChartEnv, s: State, req: NamespacedName, ms: seq<string>)
    requires Healthy(s) && Settled(s.objects) && |ms| > 0 && ApplyAll(env, s, req, ms).err.None?
    requires Prepare(env, req, ms[0]).Ok? && !Targets(env, req, ms[1..], KeyOf(Prepare(env, req, ms[0]).value.obj))
    ensures var obj := Prepare(env, req, ms[0]).value.obj;
      var r := ApplyAll(env, s, req, ms);
      KeyOf(obj) in r.state.objects && Carries(r.state.objects[KeyOf(obj)], obj)
  {
    var o := ApplyStep(env, s, req, ms[0]);
    ApplyAllSucceeded(env, s, req, ms);
    ApplyStepStores(env, s, req, ms[0]);
    ApplyAllFrame(env, o.state, req, ms[1..], KeyOf(Prepare(env, req, ms[0]).value.obj));
  }

  /**
   * After a loop that succeeded on a settled cluster whose calls all succeed,
   * each key holds what the last manifest applied under it declared.
   */
  lemma {:induction false} ApplyAllStores(env: ChartEnv, s: State, req: NamespacedName, ms: seq<string>, i: int)
    requires Healthy(s) && Settled(s.objects) && ApplyAll(env, s, req, ms).err.None?
    requires 0 <= i < |ms| && Prepare(env, req, ms[i]).Ok?
    requires !Targets(env, req, ms[i + 1..], KeyOf(Prepare(env, req, ms[i]).value.obj))
    ensures var obj := Prepare(env, req, ms[i]).value.obj;
      var r := ApplyAll(env, s, req, ms);
      KeyOf(obj) in r.state.objects && Carries(r.state.objects[KeyOf(obj)], obj)
    decreases |ms|
  {
    if i == 0 {
      ApplyAllStoresFirst(env, s, req, ms);
    } else {
      var o := ApplyStep(env, s, req, ms[0]);
      ApplyAllSucceeded(env, s, req, ms);
      ApplyStepSettled(env, s, req, ms[0]);
      assert ms[1..][i - 1] == ms[i] && ms[1..][i..] == ms[i + 1..];
      ApplyAllStores(env, o.state, req, ms[1..], i - 1);
    }
  }

  /**
   * With recorded resources and a cluster that accepts the write, the HelmDog
   * holds exactly those resources and the finalizer, keeps every finalizer
   * and the status it had, and a new HelmDog has this finalizer only.
   */
  lemma DogWritten(env: ChartEnv, s: State, req: NamespacedName, resources: seq<Resource>)
    requires Healthy(s) && |resources| > 0
    ensures var r := DogStep(env, s, req, resources);
      var k := HelmDogKey(req);
      && r.err.None?
      && k in r.state.objects
      && env.finalizer in r.state.objects[k].finalizers
      && (k !in s.objects ==> r.state.objects[k].finalizers == [env.finalizer])
      && (k in s.objects ==> forall f :: f in s.objects[k].finalizers ==> f in r.state.objects[k].finalizers)
      && HelmDogController.SpecOf(r.state.objects[k]) == resources
      && HelmDogController.StatusOf(r.state.objects[k]) == (if k in s.objects then HelmDogController.StatusOf(s.objects[k]) else [])
  {
  }

  /**
   * The HelmDog is not re-applied when nothing is recorded any more: a
   * reconcile whose manifests track nothing and do not name the HelmDog
   * leaves it exactly as it was, stale resource list included.
   */
  lemma StaleDogKept(env: ChartEnv, s: State, req: NamespacedName)
    requires PopFault(s).fault.None? && HelmChartKey(req) in s.objects
    requires var cr := s.objects[HelmChartKey(req)];
      && !cr.deleting && env.finalizer in cr.finalizers && env.webhooksEnabled != "true"
      && var ms := Helm.Manifests(env.engine, req.name, req.namespace, ChartSpecOf(cr).chartPath, ChartSpecOf(cr).values);
        ms.Ok? && Tracked(env, req, ms.value) == [] && !Targets(env, req, ms.value, HelmDogKey(req))
    ensures var r := ReconcileSpec(env, s, req);
      && (HelmDogKey(req) in r.state.objects <==> HelmDogKey(req) in s.objects)
      && (HelmDogKey(req) in s.objects ==> r.state.objects[HelmDogKey(req)] == s.objects[HelmDogKey(req)])
  {
    var cr := s.objects[HelmChartKey(req)];
    var ms := Helm.Manifests(env.engine, req.name, req.namespace, ChartSpecOf(cr).chartPath, ChartSpecOf(cr).values).value;
    var s1 := PopFault(s).state;
    ApplyAllFrame(env, s1, req, ms, HelmDogKey(req));
    var a := ApplyAll(env, s1, req, ms);
    if a.err.None? {
      ApplyAllTracked(env, s1, req, ms);
    }
  }

  /** With webhooks enabled and no cache secret, the reconcile reports it and applies nothing. */
  lemma MissingCacheAppliesNothing(env: ChartEnv, s: State, req: NamespacedName)
    requires Healthy(s) && HelmChartKey(req) in s.objects && CacheKey(env, req) !in s.objects
    requires var cr := s.objects[HelmChartKey(req)];
      !cr.deleting && env.webhooksEnabled == "true"
    ensures var r := ReconcileSpec(env, s, req);
      && r.err == Some(NoSecretMessage)
      && r.state.objects.Keys == s.objects.Keys
      && forall k :: k in s.objects && k != HelmChartKey(req) ==> r.state.objects[k] == s.objects[k]
  {
  }

  /** With webhooks enabled and a cache secret lacking the manifests key, the reconcile reports it and applies nothing. */
  lemma BadSecretAppliesNothing(env: ChartEnv, s: State, req: NamespacedName)
    requires Healthy(s) && HelmChartKey(req) in s.objects && CacheKey(env, req) in s.objects
    requires ManifestsKey !in SecretData(s.objects[CacheKey(env, req)])
    requires var cr := s.objects[HelmChartKey(req)];
      !cr.deleting && env.webhooksEnabled == "true"
    ensures var r := ReconcileSpec(env, s, req);
      && r.err == Some(BadSecretMessage)
      && r.state.objects.Keys == s.objects.Keys
      && forall k :: k in s.objects && k != HelmChartKey(req) ==> r.state.objects[k] == s.objects[k]
  {
    var key := HelmChartKey(req);
    var f := AddFinalizerSpec(env, GetOp(s, key).state, key, s.objects[key]);
    assert f.err.None? && Healthy(f.state) && f.state.objects.Keys == s.objects.Keys;
    assert forall k :: k in s.objects && k != key ==> f.state.objects[k] == s.objects[k];
  }

  /**
   * A manifest that cannot be prepared fails the reconcile before the
   * HelmDog is written: unless a manifest names the HelmDog itself, it stays
   * as it was, whatever the manifests before the failing one recorded.
   */
  lemma ApplyFailureWritesNoDog(env: ChartEnv, s: State, req: NamespacedName)
    requires Healthy(s) && HelmChartKey(req) in s.objects
    requires var cr := s.objects[HelmChartKey(req)];
      && !cr.deleting && env.webhooksEnabled != "true"
      && var ms := Helm.Manifests(env.engine, req.name, req.namespace, ChartSpecOf(cr).chartPath, ChartSpecOf(cr).values);
        && ms.Ok?
        && (exists i :: 0 <= i < |ms.value| && Prepare(env, req, ms.value[i]).Err?)
        && !Targets(env, req, ms.value, HelmDogKey(req))
    ensures var r := ReconcileSpec(env, s, req);
      && r.err.Some?
      && (HelmDogKey(req) in r.state.objects <==> HelmDogKey(req) in s.objects)
      && (HelmDogKey(req) in s.objects ==> r.state.objects[HelmDogKey(req)] == s.objects[HelmDogKey(req)])
  {
    var key := HelmChartKey(req);
    var cr := s.objects[key];
    var ms := Helm.Manifests(env.engine, req.name, req.namespace, ChartSpecOf(cr).chartPath, ChartSpecOf(cr).values).value;
    var f := AddFinalizerSpec(env, GetOp(s, key).state, key, cr);
    assert f.err.None? && Healthy(f.state);
    ApplyAllHealthy(env, f.state, req, ms);
    ApplyAllFrame(env, f.state, req, ms, HelmDogKey(req));
  }

  /** A cache secret holding the webhook's join of a cacheable list yields that list. */
  lemma CachedManifestsRoundTrip(env: ChartEnv, s: State, req: NamespacedName, spec: HelmChartSpec, ms: seq<string>)
    requires env.webhooksEnabled == "true" && PopFault(s).fault.None?
    requires CacheKey(env, req) in s.objects && s.objects[CacheKey(env, req)].body.Secret?
    requires SecretData(s.objects[CacheKey(env, req)]) == map[ManifestsKey := ManifestCodec.Encode(ms)]
    requires ManifestCodec.Cacheable(ms)
    ensures FetchManifests(env, s, req, spec).manifests == Ok(ms)
  {
    ManifestCodec.DecodeEncode(ms);
  }

  /**
   * A chart being deleted keeps its finalizer when its HelmDog could not be
   * deleted for any reason but NotFound, which counts as deleted.
   */
  lemma FinalizerKeptWhenCleanFails(env: ChartEnv, s: State, req: NamespacedName)
    requires PopFault(s).fault.None? && HelmChartKey(req) in s.objects && s.objects[HelmChartKey(req)].deleting
    requires var f := PopFault(PopFault(s).state).fault; f.Some? && !f.value.NotFound?
    ensures var r := ReconcileSpec(env, s, req);
      && r.err == Some(Message(PopFault(PopFault(s).state).fault.value))
      && HelmChartKey(req) in r.state.objects && r.state.objects[HelmChartKey(req)] == s.objects[HelmChartKey(req)]
  {
  }

  /** A HelmDog that is already gone, or reported gone, is no obstacle to removing the finalizer. */
  lemma CleanToleratesNotFound(s: State, req: NamespacedName)
    requires PopFault(s).fault.None? || PopFault(s).fault == Some(NotFound)
    ensures CleanSpec(s, req).err.None?
    ensures CleanSpec(s, req).state.objects.Keys <= s.objects.Keys
  {
  }

  /**
   * On a cluster whose calls all succeed, a chart being deleted first has its
   * HelmDog deleted (marked, or gone), then loses this operator's finalizer.
   */
  lemma HealthyChartDeletion(env: ChartEnv, s: State, req: NamespacedName)
    requires Healthy(s) && HelmChartKey(req) in s.objects && s.objects[HelmChartKey(req)].deleting
    ensures var r := ReconcileSpec(env, s, req);
      && r.err.None?
      && (HelmDogKey(req) in r.state.objects ==> r.state.objects[HelmDogKey(req)].deleting)
      && (HelmChartKey(req) in r.state.objects ==> env.finalizer !in r.state.objects[HelmChartKey(req)].finalizers)
  {
    var cr := s.objects[HelmChartKey(req)];
    StringUtil.WithoutMembers(cr.finalizers, env.finalizer, env.finalizer);
  }
}
