/**
 * The API types of the operator (group app.siji.io, version v1), reduced to
 * the fields the controllers and the webhook read or write.
 */
module Api {

  const Group := "app.siji.io"
  const Version := "v1"

  /** Resource (api/v1/helmdog_types.go:27-33): identifies one cluster object. */
  datatype Resource = Resource(group: string, version: string, kind: string, name: string, namespace: string)

  /** The name and namespace a reconcile request is about. */
  datatype NamespacedName = NamespacedName(name: string, namespace: string)

  /** A point in time: whether it is the zero time, and its printed form. */
  datatype Timestamp = Timestamp(isZero: bool, text: string)

  /** HelmChart spec: the chart path and the raw value overlay. */
  datatype HelmChartSpec = HelmChartSpec(chartPath: string, values: string)

  /** HelmRelease spec.chart (api/v1/helmrelease_types.go:42-52). */
  datatype ChartSource = ChartSource(address: string, credential: string, skipTLSVerify: bool)

  /** HelmReleaseSpec (api/v1/helmrelease_types.go:28-40). */
  datatype HelmReleaseSpec = HelmReleaseSpec(chart: ChartSource, values: string, foo: string)

  /** HelmReleaseStatus (api/v1/helmrelease_types.go:55-70). */
  datatype HelmReleaseStatus = HelmReleaseStatus(hashedSpec: string, revision: string, chart: string, updated: string)

  function HelmChartKey(req: NamespacedName): Resource {
    Resource(Group, Version, "HelmChart", req.name, req.namespace)
  }

  function HelmDogKey(req: NamespacedName): Resource {
    Resource(Group, Version, "HelmDog", req.name, req.namespace)
  }

  function HelmReleaseKey(req: NamespacedName): Resource {
    Resource(Group, Version, "HelmRelease", req.name, req.namespace)
  }

  /** The core/v1 Secret with the given name in the given namespace. */
  function SecretKey(name: string, namespace: string): Resource {
    Resource("", "v1", "Secret", name, namespace)
  }
}
