/**
 * api/v1/helmchart_webhook.go: the validating admission handler for
 * HelmCharts. On create and update it renders the chart, asks the
 * authorizer (a SubjectAccessReview) whether the requesting user may manage
 * every object, and caches the joined manifests in a secret of the operator
 * namespace for the HelmChart controller.
 */
module HelmChartWebhook {
  import opened Wrappers
  import opened Api
  import opened Store
  import Helm
  import ManifestCodec

  datatype Operation = Create | Update | Delete | Connect

  datatype UserInfo = UserInfo(uid: string, username: string, groups: seq<string>, extra: Option<map<string, seq<string>>>)

  /** The decoded HelmChart of the request. */
  datatype HelmChartObject = HelmChartObject(name: string, namespace: string, spec: HelmChartSpec)

  /** An admission request: its operation, its user, and the HelmChart decoder's result. */
  datatype AdmissionRequest = AdmissionRequest(operation: Operation, user: UserInfo, chart: Result<HelmChartObject, string>)

  datatype Response = Allowed | Denied(reason: string) | Errored(code: int, msg: string)

  /** http.StatusBadRequest. */
  const BadRequest := 400

  datatype ResourceAttributes = ResourceAttributes(namespace: string, verb: string, group: string, version: string, resource: string)

  datatype ReviewSpec = ReviewSpec(attributes: ResourceAttributes, uid: string, user: string, groups: seq<string>, extra: Option<map<string, seq<string>>>)

  datatype ReviewStatus = ReviewStatus(allowed: bool, reason: string)

  /**
   * What the handler reads besides the cluster: the operator namespace, the
   * cache secret naming scheme, the renderer, the YAML parser, the
   * RESTMapper and the authorizer (creating a SubjectAccessReview, which may fail).
   */
  datatype GateEnv = GateEnv(
    operatorNamespace: string,
    secretName: (string, string) -> string,
    engine: Helm.Engine,
    parse: string -> Unstructured,
    mapper: Mapper,
    review: ReviewSpec -> Result<ReviewStatus, string>)

  /** convertToSARExtra (lines 166-176): nil stays nil; otherwise every key keeps its values. */
  method ConvertToSARExtra(extra: Option<map<string, seq<string>>>) returns (r: Option<map<string, seq<string>>>)
    ensures extra.None? ==> r.None?
    ensures extra.Some? ==> r == extra
  {
    if extra.None? {
      return None;
    }
    var ret: map<string, seq<string>> := map[];
    var pending := extra.value.Keys;
    while pending != {}
      invariant pending <= extra.value.Keys
      invariant ret.Keys == extra.value.Keys - pending
      invariant forall k :: k in ret ==> ret[k] == extra.value[k]
      decreases pending
    {
      var k :| k in pending;
      ret := ret[k := extra.value[k]];
      pending := pending - {k};
    }
    assert ret == extra.value;
    return Some(ret);
  }

  /** The review checkPermission sends for obj (lines 143-157). */
  function ReviewFor(user: UserInfo, obj: Unstructured, mapping: Mapping): (r: ReviewSpec)
    ensures r.attributes == ResourceAttributes(obj.namespace, "*", obj.group, obj.version, mapping.resource)
    ensures r.uid == user.uid && r.user == user.username && r.groups == user.groups && r.extra == user.extra
  {
    ReviewSpec(ResourceAttributes(obj.namespace, "*", obj.group, obj.version, mapping.resource),
      user.uid, user.username, user.groups, user.extra)
  }

  /** checkPermission: a mapping failure or a failed review is an error, not a denial. */
  function Permission(env: GateEnv, user: UserInfo, obj: Unstructured): (r: Result<ReviewStatus, string>)
    ensures env.mapper(obj.group, obj.kind, obj.version).Err? ==> r == Err(env.mapper(obj.group, obj.kind, obj.version).error)
    ensures env.mapper(obj.group, obj.kind, obj.version).Ok? ==>
      r == env.review(ReviewFor(user, obj, env.mapper(obj.group, obj.kind, obj.version).value))
  {
    var mapping := env.mapper(obj.group, obj.kind, obj.version);
    if mapping.Err? then Err(mapping.error)
    else env.review(ReviewFor(user, obj, mapping.value))
  }

  method CheckPermission(env: GateEnv, user: UserInfo, obj: Unstructured) returns (r: Result<ReviewStatus, string>)
    ensures r == Permission(env, user, obj)
  {
    var mapping := env.mapper(obj.group, obj.kind, obj.version);
    if mapping.Err? {
      return Err(mapping.error);
    }
    var extra := ConvertToSARExtra(user.extra);
    var attributes := ResourceAttributes(obj.namespace, "*", obj.group, obj.version, mapping.value.resource);
    r := env.review(ReviewSpec(attributes, user.uid, user.username, user.groups, extra));
  }

  /** The deny reason: the authorizer's, or a default naming the kind (lines 100-103). */
  function DenyReason(reason: string, kind: string): (r: string)
    ensures |r| > 0
    ensures reason != "" ==> r == reason
    ensures reason == "" ==> r == "not allowed to create " + kind
  {
    if reason == "" then "not allowed to create " + kind else reason
  }

  /** How the manifest checks end: all allowed, the first denial's reason, or the first error. */
  datatype Check = AllAllowed | Refused(reason: string) | Broken(msg: string)

  /** The object of manifest m as the loop of lines 90-106 checks it: its namespace overwritten. */
  function Checked(env: GateEnv, namespace: string, m: string): Unstructured {
    env.parse(m).(namespace := namespace)
  }

  /** Lines 90-106: the manifests checked in order until one is not allowed or fails. */
  function Gate(env: GateEnv, namespace: string, user: UserInfo, ms: seq<string>): Check
    decreases |ms|
  {
    if |ms| == 0 then AllAllowed
    else
      var obj := Checked(env, namespace, ms[0]);
      var st := Permission(env, user, obj);
      if st.Err? then Broken(st.error)
      else if !st.value.allowed then Refused(DenyReason(st.value.reason, obj.kind))
      else Gate(env, namespace, user, ms[1..])
  }

  method CheckManifests(env: GateEnv, namespace: string, user: UserInfo, ms: seq<string>) returns (check: Check)
    ensures check == Gate(env, namespace, user, ms)
  {
    var i := 0;
    assert ms[i..] == ms;
    while i < |ms|
      invariant 0 <= i <= |ms|
      invariant Gate(env, namespace, user, ms) == Gate(env, namespace, user, ms[i..])
    {
      assert ms[i..][1..] == ms[i + 1..];
      var obj := env.parse(ms[i]);
      obj := obj.(namespace := namespace);
      var status := CheckPermission(env, user, obj);
      if status.Err? {
        return Broken(status.error);
      }
      if !status.value.allowed {
        var reason := status.value.reason;
        if reason == "" {
          reason := "not allowed to create " + obj.kind;
        }
        return Refused(reason);
      }
      i := i + 1;
    }
    return AllAllowed;
  }

  /** The cache secret the handler writes: the joined manifests under "manifests". */
  function CacheObj(ms: seq<string>): Obj {
    Obj(map[], [], false, Secret(map["manifests" := ManifestCodec.Encode(ms)]))
  }

  function CacheKey(env: GateEnv, chart: HelmChartObject): Resource {
    SecretKey(env.secretName(chart.name, chart.namespace), env.operatorNamespace)
  }

  datatype Admission = Admission(state: State, response: Response)

  /** Lines 122-132: Create, then Update when the secret already exists. */
  function StoreCacheSpec(s: State, key: Resource, o: Obj): (r: Admission)
    ensures forall k :: k != key ==> (k in r.state.objects <==> k in s.objects)
    ensures forall k :: k != key && k in s.objects ==> r.state.objects[k] == s.objects[k]
    ensures r.response.Allowed? || (r.response.Errored? && r.response.code == BadRequest)
  {
    var cr := CreateOp(s, key, o);
    if cr.error.None? then Admission(cr.state, Allowed)
    else if !cr.error.value.AlreadyExists? then Admission(cr.state, Errored(BadRequest, Message(cr.error.value)))
    else
      var u := UpdateOp(cr.state, key, o);
      if u.error.Some? then Admission(u.state, Errored(BadRequest, Message(u.error.value)))
      else Admission(u.state, Allowed)
  }

  /** Handle (lines 61-136). */
  function HandleSpec(env: GateEnv, s: State, req: AdmissionRequest): Admission {
    if req.chart.Err? then Admission(s, Errored(BadRequest, req.chart.error))
    else if req.operation != Create && req.operation != Update then Admission(s, Allowed)
    else
      var chart := req.chart.value;
      var ms := Helm.Manifests(env.engine, chart.name, chart.namespace, chart.spec.chartPath, chart.spec.values);
      if ms.Err? then Admission(s, Errored(BadRequest, ms.error))
      else
        match Gate(env, chart.namespace, req.user, ms.value)
        case Broken(m) => Admission(s, Errored(BadRequest, m))
        case Refused(reason) => Admission(s, Denied(reason))
        case AllAllowed => StoreCacheSpec(s, CacheKey(env, chart), CacheObj(ms.value))
  }

  method StoreCache(c: Cluster, key: Resource, o: Obj) returns (resp: Response)
    modifies c
    ensures Admission(c.Snapshot(), resp) == StoreCacheSpec(old(c.Snapshot()), key, o)
  {
    var e := c.Create(key, o);
    if e.Some? {
      if !e.value.AlreadyExists? {
        return Errored(BadRequest, Message(e.value));
      }
      var u := c.Update(key, o);
      if u.Some? {
        return Errored(BadRequest, Message(u.value));
      }
    }
    return Allowed;
  }

  method Handle(c: Cluster, env: GateEnv, req: AdmissionRequest) returns (resp: Response)
    modifies c
    ensures Admission(c.Snapshot(), resp) == HandleSpec(env, old(c.Snapshot()), req)
  {
    if req.chart.Err? {
      return Errored(BadRequest, req.chart.error);
    }
    var chart := req.chart.value;
    if req.operation == Create || req.operation == Update {
      var ms := Helm.GetManifests(env.engine, chart.name, chart.namespace, chart.spec.chartPath, chart.spec.values);
      if ms.Err? {
        return Errored(BadRequest, ms.error);
      }
      var check := CheckManifests(env, chart.namespace, req.user, ms.value);
      match check
      case Broken(m) =>
        return Errored(BadRequest, m);
      case Refused(reason) =>
        return Denied(reason);
      case AllAllowed =>
        resp := StoreCache(c, CacheKey(env, chart), CacheObj(ms.value));
        return;
    }
    return Allowed;
  }

  // ----------------------------------------------------------------- lemmas

  /** The authorizer allowed manifest m when checked as obj. */
  predicate AllowedAs(env: GateEnv, user: UserInfo, obj: Unstructured) {
    Permission(env, user, obj).Ok? && Permission(env, user, obj).value.allowed
  }

  /** All manifests pass the gate exactly when every one, checked in the chart namespace, is allowed. */
  lemma {:induction false} GateAllowsAll(env: GateEnv, namespace: string, user: UserInfo, ms: seq<string>)
    ensures Gate(env, namespace, user, ms) == AllAllowed <==>
      forall i :: 0 <= i < |ms| ==> AllowedAs(env, user, Checked(env, namespace, ms[i]))
    decreases |ms|
  {
    if |ms| > 0 {
      GateAllowsAll(env, namespace, user, ms[1..]);
      if Gate(env, namespace, user, ms) != AllAllowed {
        if AllowedAs(env, user, Checked(env, namespace, ms[0])) {
          var i :| 0 <= i < |ms[1..]| && !AllowedAs(env, user, Checked(env, namespace, ms[1..][i]));
          assert ms[1..][i] == ms[i + 1];
        }
      } else {
        forall i | 0 <= i < |ms|
          ensures AllowedAs(env, user, Checked(env, namespace, ms[i]))
        {
          if i > 0 {
            assert ms[1..][i - 1] == ms[i];
          }
        }
      }
    }
  }

  /**
   * The first manifest that is not allowed decides: the request is refused
   * with its reason (or fails with its error) whatever the manifests after it.
   */
  lemma {:induction false} FirstRefusalDecides(env: GateEnv, namespace: string, user: UserInfo, front: seq<string>, m: string, back: seq<string>)
    requires Gate(env, namespace, user, front) == AllAllowed
    requires !AllowedAs(env, user, Checked(env, namespace, m))
    ensures Gate(env, namespace, user, front + [m] + back) == Gate(env, namespace, user, [m])
    ensures Gate(env, namespace, user, [m]).Refused? ==>
      Gate(env, namespace, user, [m]).reason == DenyReason(Permission(env, user, Checked(env, namespace, m)).value.reason, Checked(env, namespace, m).kind)
    decreases |front|
  {
    if |front| == 0 {
      assert front + [m] + back == [m] + back;
      assert ([m] + back)[1..] == back;
    } else {
      assert (front + [m] + back)[1..] == front[1..] + [m] + back;
      FirstRefusalDecides(env, namespace, user, front[1..], m, back);
    }
  }

  /** Operations other than create and update are allowed without any check or write. */
  lemma OtherOperationsAllowed(env: GateEnv, s: State, req: AdmissionRequest)
    requires req.chart.Ok? && req.operation != Create && req.operation != Update
    ensures HandleSpec(env, s, req) == Admission(s, Allowed)
  {
  }

  /** A refused or failing check writes no secret. */
  lemma RefusalWritesNothing(env: GateEnv, s: State, req: AdmissionRequest)
    requires req.chart.Ok? && (req.operation == Create || req.operation == Update)
    requires var chart := req.chart.value;
      var ms := Helm.Manifests(env.engine, chart.name, chart.namespace, chart.spec.chartPath, chart.spec.values);
      ms.Ok? && Gate(env, chart.namespace, req.user, ms.value) != AllAllowed
    ensures HandleSpec(env, s, req).state == s
    ensures HandleSpec(env, s, req).response.Denied? || HandleSpec(env, s, req).response == Errored(BadRequest, Gate(env, req.chart.value.namespace, req.user,
      Helm.Manifests(env.engine, req.chart.value.name, req.chart.value.namespace, req.chart.value.spec.chartPath, req.chart.value.spec.values).value).msg)
  {
  }

  /**
   * With a cluster whose calls all succeed, the secret write is allowed and
   * leaves the joined manifests in the secret, whether it was created or updated
   * (unless an existing secret was already being deleted).
   */
  lemma StoreCacheHealthy(s: State, key: Resource, ms: seq<string>)
    requires Healthy(s)
    ensures var r := StoreCacheSpec(s, key, CacheObj(ms));
      && r.response == Allowed
      && Healthy(r.state)
      && (key !in s.objects || !s.objects[key].deleting ==> key in r.state.objects && r.state.objects[key] == CacheObj(ms))
  {
  }

  // ------------------------------------------------------- namespace finding

  /** The namespace the HelmChart controller applies an object in (controllers/helmchart_controller.go:152-155). */
  function EffectiveNamespace(obj: Unstructured, mapping: Mapping, namespace: string): string {
    if obj.namespace == "" && mapping.scope == NamespaceScope then namespace else obj.namespace
  }

  /** The object of manifest m with the namespace it will actually be applied in. */
  function Effective(env: GateEnv, namespace: string, m: string): Unstructured {
    var obj := env.parse(m);
    var mapping := env.mapper(obj.group, obj.kind, obj.version);
    if mapping.Err? then obj else obj.(namespace := EffectiveNamespace(obj, mapping.value, namespace))
  }

  /** The gate checking each object in the namespace it will be applied in. */
  function GateEffective(env: GateEnv, namespace: string, user: UserInfo, ms: seq<string>): Check
    decreases |ms|
  {
    if |ms| == 0 then AllAllowed
    else
      var obj := Effective(env, namespace, ms[0]);
      var st := Permission(env, user, obj);
      if st.Err? then Broken(st.error)
      else if !st.value.allowed then Refused(DenyReason(st.value.reason, obj.kind))
      else GateEffective(env, namespace, user, ms[1..])
  }

  /** GateEffective admits a list exactly when every object is allowed in the namespace it will be applied in. */
  lemma {:induction false} GateEffectiveAllowsAll(env: GateEnv, namespace: string, user: UserInfo, ms: seq<string>)
    ensures GateEffective(env, namespace, user, ms) == AllAllowed <==>
      forall i :: 0 <= i < |ms| ==> AllowedAs(env, user, Effective(env, namespace, ms[i]))
    decreases |ms|
  {
    if |ms| > 0 {
      GateEffectiveAllowsAll(env, namespace, user, ms[1..]);
      if GateEffective(env, namespace, user, ms) != AllAllowed {
        if AllowedAs(env, user, Effective(env, namespace, ms[0])) {
          var i :| 0 <= i < |ms[1..]| && !AllowedAs(env, user, Effective(env, namespace, ms[1..][i]));
          assert ms[1..][i] == ms[i + 1];
        }
      } else {
        forall i | 0 <= i < |ms|
          ensures AllowedAs(env, user, Effective(env, namespace, ms[i]))
        {
          if i > 0 {
            assert ms[1..][i - 1] == ms[i];
          }
        }
      }
    }
  }

  /** A concrete request: a manifest pinned to another namespace than its chart's. */
  function PinnedManifest(m: string): Unstructured {
    Unstructured("", "v1", "ConfigMap", "pinned", "kube-system", map[], [], None)
  }

  function NamespacedMapping(group: string, kind: string, version: string): Result<Mapping, string> {
    Ok(Mapping("configmaps", NamespaceScope))
  }

  /** An authorizer that allows everything in namespace "team" and nothing elsewhere. */
  function TeamOnly(spec: ReviewSpec): Result<ReviewStatus, string> {
    Ok(ReviewStatus(spec.attributes.namespace == "team", ""))
  }

  /**
   * As written, the gate checks the pinned manifest in the chart's namespace
   * "team" and admits it, although the object lives in (and the controller
   * applies it to) "kube-system", where the user may do nothing. The
   * corrected gate refuses it.
   */
  lemma OverwrittenNamespaceAdmitsForeignObject(engine: Helm.Engine, secretName: (string, string) -> string, user: UserInfo)
    ensures var env := GateEnv("operator", secretName, engine, PinnedManifest, NamespacedMapping, TeamOnly);
      && Gate(env, "team", user, ["m"]) == AllAllowed
      && Effective(env, "team", "m").namespace == "kube-system"
      && !AllowedAs(env, user, Effective(env, "team", "m"))
      && GateEffective(env, "team", user, ["m"]) == Refused("not allowed to create ConfigMap")
  {
    var env := GateEnv("operator", secretName, engine, PinnedManifest, NamespacedMapping, TeamOnly);
    assert Checked(env, "team", "m").namespace == "team";
    assert ["m"][1..] == [];
  }
}
