/**
 * Properties that span the admission webhook and the HelmChart controller:
 * the manifest cache the one writes and the other reads, and whether the
 * objects the controller applies were authorized by the webhook.
 */
module EndToEnd {
  import opened Wrappers
  import opened Api
  import opened Store
  import Helm
  import ManifestCodec
  import HelmChartWebhook
  import HelmChartController
  import HelmDogController

  /**
   * An admitted create or update leaves in the cache exactly what the
   * controller reads back as the rendered manifests, when those are
   * cacheable and the two sides agree on the secret's name and namespace.
   */
  lemma CacheRoundTrip(genv: HelmChartWebhook.GateEnv, cenv: HelmChartController.ChartEnv, s: State,
                       req: HelmChartWebhook.AdmissionRequest)
    requires Healthy(s) && req.chart.Ok?
    requires req.operation == HelmChartWebhook.Create || req.operation == HelmChartWebhook.Update
    requires cenv.webhooksEnabled == "true" && cenv.secretName == genv.secretName && cenv.operatorNamespace == genv.operatorNamespace
    requires var chart := req.chart.value;
      var ms := Helm.Manifests(genv.engine, chart.name, chart.namespace, chart.spec.chartPath, chart.spec.values);
      && ms.Ok? && ManifestCodec.Cacheable(ms.value)
      && HelmChartWebhook.Gate(genv, chart.namespace, req.user, ms.value) == HelmChartWebhook.AllAllowed
    requires var key := HelmChartWebhook.CacheKey(genv, req.chart.value);
      key !in s.objects || !s.objects[key].deleting
    ensures var chart := req.chart.value;
      var ms := Helm.Manifests(genv.engine, chart.name, chart.namespace, chart.spec.chartPath, chart.spec.values);
      var admitted := HelmChartWebhook.HandleSpec(genv, s, req);
      && admitted.response == HelmChartWebhook.Allowed
      && HelmChartController.FetchManifests(cenv, admitted.state, NamespacedName(chart.name, chart.namespace), chart.spec).manifests == ms
  {
    var chart := req.chart.value;
    var ms := Helm.Manifests(genv.engine, chart.name, chart.namespace, chart.spec.chartPath, chart.spec.values).value;
    var key := HelmChartWebhook.CacheKey(genv, chart);
    HelmChartWebhook.StoreCacheHealthy(s, key, ms);
    var admitted := HelmChartWebhook.HandleSpec(genv, s, req);
    var creq := NamespacedName(chart.name, chart.namespace);
    assert HelmChartController.CacheKey(cenv, creq) == key;
    assert HelmChartController.SecretData(admitted.state.objects[key]) == map[HelmChartController.ManifestsKey := ManifestCodec.Encode(ms)];
    HelmChartController.CachedManifestsRoundTrip(cenv, admitted.state, creq, chart.spec, ms);
  }

  /** The authorizer allowed the user to manage obj, checked where obj is. */
  predicate Authorized(genv: HelmChartWebhook.GateEnv, user: HelmChartWebhook.UserInfo, obj: Unstructured) {
    HelmChartWebhook.AllowedAs(genv, user, obj)
  }

  /**
   * As written: the webhook admits a chart whose manifest the controller
   * then applies in "kube-system", where the requesting user is not allowed
   * to manage anything.
   */
  lemma GateAdmitsObjectAppliedElsewhere(engine: Helm.Engine, secretName: (string, string) -> string,
                                         user: HelmChartWebhook.UserInfo, cenv: HelmChartController.ChartEnv)
    requires cenv.parse == HelmChartWebhook.PinnedManifest && cenv.mapper == HelmChartWebhook.NamespacedMapping
    ensures var genv := HelmChartWebhook.GateEnv("operator", secretName, engine, HelmChartWebhook.PinnedManifest,
        HelmChartWebhook.NamespacedMapping, HelmChartWebhook.TeamOnly);
      var placed := HelmChartController.Prepare(cenv, NamespacedName("chart", "team"), "m");
      && HelmChartWebhook.Gate(genv, "team", user, ["m"]) == HelmChartWebhook.AllAllowed
      && placed.Ok? && placed.value.obj.namespace == "kube-system"
      && !Authorized(genv, user, placed.value.obj)
  {
    HelmChartWebhook.OverwrittenNamespaceAdmitsForeignObject(engine, secretName, user);
  }

  /**
   * Corrected: when the gate checks each object in the namespace it will be
   * applied in, every object the controller applies for an admitted chart
   * (same parser and RESTMapper) was authorized.
   */
  lemma AppliedObjectsAuthorized(genv: HelmChartWebhook.GateEnv, cenv: HelmChartController.ChartEnv,
                                 user: HelmChartWebhook.UserInfo, req: NamespacedName, ms: seq<string>, i: int)
    requires cenv.parse == genv.parse && cenv.mapper == genv.mapper
    requires HelmChartWebhook.GateEffective(genv, req.namespace, user, ms) == HelmChartWebhook.AllAllowed
    requires 0 <= i < |ms| && HelmChartController.Prepare(cenv, req, ms[i]).Ok?
    ensures Authorized(genv, user, HelmChartController.Prepare(cenv, req, ms[i]).value.obj)
  {
    HelmChartWebhook.GateEffectiveAllowsAll(genv, req.namespace, user, ms);
    var applied := HelmChartController.Prepare(cenv, req, ms[i]).value.obj;
    var checked := HelmChartWebhook.Effective(genv, req.namespace, ms[i]);
    assert applied == checked.(controller := applied.controller);
    assert HelmChartWebhook.Permission(genv, user, applied) == HelmChartWebhook.Permission(genv, user, checked);
  }

  /**
   * A successful reconcile on a healthy cluster leaves a HelmDog listing
   * exactly the tracked resources whenever some manifest is tracked.
   */
  lemma TrackedResourcesHandedToDog(cenv: HelmChartController.ChartEnv, s: State, req: NamespacedName, ms: seq<string>)
    requires Healthy(s)
    requires HelmChartController.ApplyAll(cenv, s, req, ms).err.None?
    requires |HelmChartController.Tracked(cenv, req, ms)| > 0
    ensures var a := HelmChartController.ApplyAll(cenv, s, req, ms);
      var r := HelmChartController.DogStep(cenv, a.state, req, a.resources);
      && r.err.None?
      && HelmDogKey(req) in r.state.objects
      && HelmDogController.SpecOf(r.state.objects[HelmDogKey(req)]) == HelmChartController.Tracked(cenv, req, ms)
  {
    HelmChartController.ApplyAllTracked(cenv, s, req, ms);
    HelmChartController.ApplyAllHealthy(cenv, s, req, ms);
    var a := HelmChartController.ApplyAll(cenv, s, req, ms);
    HelmChartController.DogWritten(cenv, a.state, req, a.resources);
  }
}
