/**
 * internal/controller/helmrelease_controller.go: the HelmRelease reconciler,
 * a state machine on the stored hash of the spec. The hash function and the
 * Helm install, upgrade and uninstall actions are parameters that may fail.
 */
module HelmReleaseController {
  import opened Wrappers
  import opened Api
  import opened Store
  import Text
  import Decimal
  import StringUtil
  import Helm

  const ReleaseFinalizer := "release/finalizer"

  /** What Helm reports about a deployed release. */
  datatype ReleaseInfo = ReleaseInfo(version: int, chart: Helm.Chart, lastDeployed: Timestamp)

  /**
   * The reconciler's collaborators: hashstructure.Hash of the spec (a uint64),
   * and the install, upgrade and uninstall actions for a release name,
   * namespace, chart reference, version, TLS setting and values.
   */
  datatype ReleaseEnv = ReleaseEnv(
    hash: HelmReleaseSpec -> Result<nat, string>,
    install: (string, string, string, string, bool, string) -> Result<ReleaseInfo, string>,
    upgrade: (string, string, string, string, bool, string) -> Result<ReleaseInfo, string>,
    uninstall: (string, string) -> Option<string>)

  /** The Helm actions a reconcile runs. */
  datatype Action = Install(reference: string, version: string) | Upgrade(reference: string, version: string) | Uninstall

  /** The panic of Address[:lastIndex] when the address holds no ':'. */
  const SplitPanic := "panic: slice bounds out of range"

  /** Lines 154-157 and 184-187: the chart reference before the last ':' and the version after it. */
  function SplitAddress(address: string): (r: Result<(string, string), string>)
    ensures r.Err? <==> ':' !in address
    ensures r.Err? ==> r.error == SplitPanic
    ensures r.Ok? ==> r.value.0 + ":" + r.value.1 == address && ':' !in r.value.1
  {
    var last := Text.LastIndex(address, ':');
    if last < 0 then Err(SplitPanic)
    else
      assert address == address[..last] + ":" + address[last + 1..];
      Ok((address[..last], address[last + 1..]))
  }

  function SpecOf(o: Obj): HelmReleaseSpec {
    if o.body.Release? then o.body.releaseSpec else HelmReleaseSpec(ChartSource("", "", false), "", "")
  }

  function StatusOf(o: Obj): HelmReleaseStatus {
    if o.body.Release? then o.body.releaseStatus else HelmReleaseStatus("", "", "", "")
  }

  function CreatedOf(o: Obj): Timestamp {
    if o.body.Release? then o.body.created else Timestamp(true, "")
  }

  /** Lines 131-138: the status after a successful install or upgrade. */
  function StatusAfter(hash: nat, rel: ReleaseInfo, created: Timestamp): (st: HelmReleaseStatus)
    ensures st.hashedSpec == Decimal.NatToDecimal(hash)
    ensures Decimal.Atoi(st.revision) == Some(rel.version)
    ensures st.chart == rel.chart.name + "-" + rel.chart.version
    ensures st.updated == (if rel.lastDeployed.isZero then created.text else rel.lastDeployed.text)
  {
    Decimal.AtoiIntToDecimal(rel.version);
    HelmReleaseStatus(Decimal.NatToDecimal(hash), Decimal.IntToDecimal(rel.version),
      rel.chart.name + "-" + rel.chart.version,
      if rel.lastDeployed.isZero then created.text else rel.lastDeployed.text)
  }

  datatype Step = Step(state: State, err: Option<string>, actions: seq<Action>)

  /** Lines 81-96: uninstall, then drop the release finalizer. */
  function RemoveSpec(env: ReleaseEnv, s: State, req: NamespacedName, cr: Obj): Step {
    var u := env.uninstall(req.name, req.namespace);
    if u.Some? then Step(s, u, [Uninstall])
    else if ReleaseFinalizer in cr.finalizers then
      var w := UpdateOp(s, HelmReleaseKey(req), cr.(finalizers := StringUtil.Without(cr.finalizers, ReleaseFinalizer)));
      Step(w.state, AckMessage(w), [Uninstall])
    else Step(s, None, [Uninstall])
  }

  /** The action run by installHelmRelease or upgradeHelmRelease. */
  function RunSpec(env: ReleaseEnv, installing: bool, req: NamespacedName, spec: HelmReleaseSpec, reference: string, version: string): Result<ReleaseInfo, string> {
    if installing then env.install(req.name, req.namespace, reference, version, spec.chart.skipTLSVerify, spec.values)
    else env.upgrade(req.name, req.namespace, reference, version, spec.chart.skipTLSVerify, spec.values)
  }

  /** Lines 98-145: compare hashes, install or upgrade, record the status. */
  function DeploySpec(env: ReleaseEnv, s: State, req: NamespacedName, cr: Obj): Step {
    var spec := SpecOf(cr);
    var h := env.hash(spec);
    if h.Err? then Step(s, Some(h.error), [])
    else if StatusOf(cr).hashedSpec == Decimal.NatToDecimal(h.value) then Step(s, None, [])
    else
      var split := SplitAddress(spec.chart.address);
      if split.Err? then Step(s, Some(split.error), [])
      else
        var installing := StatusOf(cr).hashedSpec == "";
        var action := if installing then Install(split.value.0, split.value.1) else Upgrade(split.value.0, split.value.1);
        var rel := RunSpec(env, installing, req, spec, split.value.0, split.value.1);
        if rel.Err? then Step(s, Some(rel.error), [action])
        else
          var status := StatusAfter(h.value, rel.value, CreatedOf(cr));
          var w := UpdateOp(s, HelmReleaseKey(req), cr.(body := Body.Release(spec, status, CreatedOf(cr))));
          Step(w.state, AckMessage(w), [action])
  }

  /** Reconcile (lines 68-146). */
  function ReconcileSpec(env: ReleaseEnv, s: State, req: NamespacedName): Step {
    var g := GetOp(s, HelmReleaseKey(req));
    if g.result.Err? then Step(g.state, IgnoreNotFound(g.result.error), [])
    else if g.result.value.deleting then RemoveSpec(env, g.state, req, g.result.value)
    else DeploySpec(env, g.state, req, g.result.value)
  }

  // ---------------------------------------------------------------- methods

  /** installHelmRelease / upgradeHelmRelease: split the address, then run the action. */
  method RunRelease(env: ReleaseEnv, installing: bool, req: NamespacedName, spec: HelmReleaseSpec)
    returns (rel: Result<ReleaseInfo, string>)
    ensures var split := SplitAddress(spec.chart.address);
      && (split.Err? ==> rel == Err(SplitPanic))
      && (split.Ok? ==> rel == RunSpec(env, installing, req, spec, split.value.0, split.value.1))
  {
    var lastIndex := Text.LastIndex(spec.chart.address, ':');
    if lastIndex < 0 {
      return Err(SplitPanic);
    }
    var version := spec.chart.address[lastIndex + 1..];
    var reference := spec.chart.address[..lastIndex];
    if installing {
      rel := env.install(req.name, req.namespace, reference, version, spec.chart.skipTLSVerify, spec.values);
    } else {
      rel := env.upgrade(req.name, req.namespace, reference, version, spec.chart.skipTLSVerify, spec.values);
    }
  }

  method RemoveRelease(c: Cluster, env: ReleaseEnv, req: NamespacedName, cr: Obj) returns (err: Option<string>, ghost actions: seq<Action>)
    modifies c
    ensures Step(c.Snapshot(), err, actions) == RemoveSpec(env, old(c.Snapshot()), req, cr)
  {
    actions := [Uninstall];
    err := env.uninstall(req.name, req.namespace);
    if err.Some? {
      return;
    }
    if ReleaseFinalizer in cr.finalizers {
      var u := c.Update(HelmReleaseKey(req), cr.(finalizers := StringUtil.Without(cr.finalizers, ReleaseFinalizer)));
      err := if u.Some? then Some(Message(u.value)) else None;
    }
  }

  method Deploy(c: Cluster, env: ReleaseEnv, req: NamespacedName, cr: Obj) returns (err: Option<string>, ghost actions: seq<Action>)
    modifies c
    ensures Step(c.Snapshot(), err, actions) == DeploySpec(env, old(c.Snapshot()), req, cr)
  {
    var spec := SpecOf(cr);
    var hashcode := env.hash(spec);
    if hashcode.Err? {
      return Some(hashcode.error), [];
    }
    if StatusOf(cr).hashedSpec == Decimal.NatToDecimal(hashcode.value) {
      return None, [];
    }
    var installing := StatusOf(cr).hashedSpec == "";
    ghost var split := SplitAddress(spec.chart.address);
    actions := [];
    if split.Ok? {
      actions := if installing then [Install(split.value.0, split.value.1)] else [Upgrade(split.value.0, split.value.1)];
    }
    var rel := RunRelease(env, installing, req, spec);
    if rel.Err? {
      return Some(rel.error), actions;
    }
    var status := StatusAfter(hashcode.value, rel.value, CreatedOf(cr));
    var u := c.Update(HelmReleaseKey(req), cr.(body := Body.Release(spec, status, CreatedOf(cr))));
    err := if u.Some? then Some(Message(u.value)) else None;
  }

  method Reconcile(c: Cluster, env: ReleaseEnv, req: NamespacedName) returns (err: Option<string>, ghost actions: seq<Action>)
    modifies c
    ensures Step(c.Snapshot(), err, actions) == ReconcileSpec(env, old(c.Snapshot()), req)
  {
    var got := c.Get(HelmReleaseKey(req));
    if got.Err? {
      return IgnoreNotFound(got.error), [];
    }
    if got.value.deleting {
      err, actions := RemoveRelease(c, env, req, got.value);
    } else {
      err, actions := Deploy(c, env, req, got.value);
    }
  }

  // ----------------------------------------------------------------- lemmas

  /** A HelmRelease that is not found is a success with no action. */
  lemma NotFoundIsNoop(env: ReleaseEnv, s: State, req: NamespacedName)
    requires PopFault(s).fault.None? && HelmReleaseKey(req) !in s.objects
    ensures ReconcileSpec(env, s, req) == Step(PopFault(s).state, None, [])
  {
  }

  /**
   * A HelmRelease being deleted is uninstalled first; if that fails the
   * error is returned and the object keeps its finalizer; otherwise the
   * release finalizer is removed.
   */
  lemma DeletionUninstallsFirst(env: ReleaseEnv, s: State, req: NamespacedName)
    requires PopFault(s).fault.None? && HelmReleaseKey(req) in s.objects && s.objects[HelmReleaseKey(req)].deleting
    ensures var r := ReconcileSpec(env, s, req);
      && r.actions == [Uninstall]
      && (env.uninstall(req.name, req.namespace).Some? ==>
        r.err == env.uninstall(req.name, req.namespace) && r.state.objects == s.objects)
      && (env.uninstall(req.name, req.namespace).None? && Healthy(s) ==>
        r.err.None? && (HelmReleaseKey(req) in r.state.objects ==> ReleaseFinalizer !in r.state.objects[HelmReleaseKey(req)].finalizers))
  {
    var cr := s.objects[HelmReleaseKey(req)];
    StringUtil.WithoutMembers(cr.finalizers, ReleaseFinalizer, ReleaseFinalizer);
  }

  /** A spec whose hash matches the recorded one runs no action and writes nothing. */
  lemma UnchangedSpecIsNoop(env: ReleaseEnv, s: State, req: NamespacedName)
    requires PopFault(s).fault.None? && HelmReleaseKey(req) in s.objects
    requires var cr := s.objects[HelmReleaseKey(req)];
      !cr.deleting && env.hash(SpecOf(cr)).Ok? && StatusOf(cr).hashedSpec == Decimal.NatToDecimal(env.hash(SpecOf(cr)).value)
    ensures ReconcileSpec(env, s, req) == Step(PopFault(s).state, None, [])
  {
  }

  /**
   * A changed spec is installed when no hash was recorded and upgraded
   * otherwise, at the reference and version of its address; the status is
   * left alone when the action fails.
   */
  lemma ChangedSpecRunsOneAction(env: ReleaseEnv, s: State, req: NamespacedName)
    requires PopFault(s).fault.None? && HelmReleaseKey(req) in s.objects
    requires var cr := s.objects[HelmReleaseKey(req)];
      && !cr.deleting && env.hash(SpecOf(cr)).Ok?
      && StatusOf(cr).hashedSpec != Decimal.NatToDecimal(env.hash(SpecOf(cr)).value)
      && ':' in SpecOf(cr).chart.address
    ensures var cr := s.objects[HelmReleaseKey(req)];
      var split := SplitAddress(SpecOf(cr).chart.address).value;
      var r := ReconcileSpec(env, s, req);
      && r.actions == [if StatusOf(cr).hashedSpec == "" then Install(split.0, split.1) else Upgrade(split.0, split.1)]
      && split.0 + ":" + split.1 == SpecOf(cr).chart.address
      && (r.err.Some? ==> r.state.objects == s.objects)
  {
  }

  /**
   * After a successful action on a cluster whose calls all succeed, the
   * status records the hash, the revision and the chart, and reconciling the
   * same spec again does nothing.
   */
  lemma SuccessfulActionSettles(env: ReleaseEnv, s: State, req: NamespacedName)
    requires Healthy(s) && HelmReleaseKey(req) in s.objects
    requires var cr := s.objects[HelmReleaseKey(req)];
      && !cr.deleting && env.hash(SpecOf(cr)).Ok?
      && StatusOf(cr).hashedSpec != Decimal.NatToDecimal(env.hash(SpecOf(cr)).value)
      && ':' in SpecOf(cr).chart.address
    requires var r := ReconcileSpec(env, s, req);
      r.actions != [] && r.err.None?
    ensures var cr := s.objects[HelmReleaseKey(req)];
      var r := ReconcileSpec(env, s, req);
      && HelmReleaseKey(req) in r.state.objects
      && StatusOf(r.state.objects[HelmReleaseKey(req)]).hashedSpec == Decimal.NatToDecimal(env.hash(SpecOf(cr)).value)
      && SpecOf(r.state.objects[HelmReleaseKey(req)]) == SpecOf(cr)
      && ReconcileSpec(env, r.state, req).actions == []
      && ReconcileSpec(env, r.state, req).err.None?
  {
  }
}
