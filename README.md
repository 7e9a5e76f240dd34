# helm-operator, modelled in Dafny

helm-operator is a Kubernetes operator that deploys Helm charts. It has three
custom resources:

- **HelmChart**: a chart that a user asks to have installed.
- **HelmDog**: a companion object that tracks the resources a HelmChart
  deployed outside its own namespace, so that they can be garbage-collected.
- **HelmRelease**: a chart deployed through Helm's install, upgrade and
  uninstall actions.

A validating webhook checks, with one SubjectAccessReview per rendered
manifest, that the user who creates or updates a HelmChart may create every
object in it. It then caches the manifests in a Secret. The HelmChart
controller reads them back from that Secret when webhooks are enabled, and
renders the chart itself otherwise.

The model keeps each reconciler's control flow: every branch, early return,
error message and client call in the source's order. It runs these against
one abstract object store. Properties are proved about the reconcilers and
about the utilities they use.

## Modules

- `Store`: the abstract API server.
  - `State` maps each resource identity to an object, and carries a script of
    faults that the next client calls return.
  - The `Cluster` class holds that state in a mutable field. Its methods
    `Get`, `Create`, `Update`, `Delete` and `Patch` are the client calls; each
    call consumes one entry of the fault script.
  - A scripted fault is any error the client can return, NotFound and
    AlreadyExists included, so every tolerated-error branch of the source is
    reachable.
  - `Patch` is server-side apply: it merges the declared annotations and
    finalizers into the stored object and keeps its deletion mark.
  - Deleting an object that still has finalizers only marks it as deleting.
  - An update that leaves a deleting object without finalizers removes it.
- `Api`: the custom resources (HelmChart, HelmDog, HelmRelease) and their keys.
- `Resources` and `StringUtil`: the slice helpers of `utils/resources.go` and
  `utils/util/string.go`, written as loops over sequences.
- `Text`: the byte-string operations the source uses, with `bytes.Split`,
  `bytes.Join` and `strings.LastIndex` among them.
  - `Decimal` covers `%d`, `strconv.Itoa` and `strconv.Atoi`.
- `ManifestCodec`: the `"\n---\n"` join the webhook writes into the Secret and
  the split the controller reads back.
- `Yaml`: `utils/yaml/yaml.go`, that is, decoding and the create-if-absent loop.
- `Helm`: `utils/helm/helm.go`, that is, the rendering pipeline and the
  filter on file names.
- `HelmDogController`, `HelmChartController`, `HelmChartWebhook` and
  `HelmReleaseController`: the reconcilers and the admission handler.
  - Each method is proved equal to a specification function of the old state.
  - The lemmas are stated about those functions.
- `EndToEnd`: properties that connect the webhook to the HelmChart and HelmDog
  controllers.

Parameters stand in for the collaborators whose code is not part of this
model. Each one is a function-valued field of an environment datatype
(`ChartEnv`, `GateEnv`, `ReleaseEnv`, `Helm.Engine`):

- the YAML parser and the RESTMapper;
- the SubjectAccessReview authorizer;
- the Helm library steps and the Helm actions;
- `hashstructure`;
- `utils.ManifestsSecretName`;
- the finalizer name and operator namespace from `utils/constant`;
- the `WEBHOOKS_ENABLED` environment variable.

## Model

| member | source | states |
|---|---|---|
| Resources.ContainResource | utils/resources.go:20-28 | found exactly when some element agrees with the resource on group, version, kind, name and namespace, that is, when the resource is in the slice |
| Resources.GetDeletedResources | utils/resources.go:9-18 | result is the current entries not in the wanted list, in order; an element is in the result iff it is current and not wanted |
| Resources.DeletedMembers | utils/resources.go:9-18 | membership in the deleted list is exactly "current and not wanted" |
| Resources.DeletedIsSubsequence | utils/resources.go:9-18 | the deleted list is an order-preserving subsequence of the current list, so it is never longer |
| Resources.DeletedCounts | utils/resources.go:9-18 | an unwanted resource keeps its multiplicity: duplicates in the current list are all reported |
| Resources.DeletedOfSubset | utils/resources.go:9-18 | when every current resource is still wanted nothing is deleted |
| Resources.DeletedOfNothingWanted | utils/resources.go:9-18 | with nothing wanted, every current resource is deleted, in order |
| StringUtil.StringInSlice | utils/util/string.go:3-10 | found iff the string occurs in the slice |
| StringUtil.RemoveStringFromSlice | utils/util/string.go:12-21 | result is the slice with every occurrence of the string removed, the rest in order |
| StringUtil.WithoutMembers | utils/util/string.go:12-21 | x is in the result iff x is in the slice and differs from the removed string |
| StringUtil.WithoutCounts | utils/util/string.go:12-21 | the multiset of the result is the slice's with the removed string's count set to zero |
| StringUtil.WithoutLength | utils/util/string.go:12-21 | the result is shorter by exactly the number of occurrences removed |
| StringUtil.WithoutIsSubsequence | utils/util/string.go:12-21 | the result is an order-preserving subsequence of the slice |
| StringUtil.WithoutAbsent | utils/util/string.go:12-21 | removing a string that does not occur leaves the slice unchanged |
| StringUtil.WithoutIdempotent | utils/util/string.go:12-21 | removing twice is removing once |
| Text.Index | controllers/helmchart_controller.go:125-126 | -1 iff the separator does not occur; otherwise the separator occurs there and at no earlier position |
| Text.IndexIsFirst | controllers/helmchart_controller.go:125-126 | the first occurrence of the separator is what Index returns |
| Text.JoinSplit | controllers/helmchart_controller.go:125-126 | joining the pieces of a split with the same separator gives back the original text |
| Text.LastIndex | internal/controller/helmrelease_controller.go:154 | -1 or a position holding the character, with no occurrence after it |
| Decimal.NatToDecimal | internal/controller/helmrelease_controller.go:131 | a non-empty string of decimal digits with no leading zero except for 0 itself |
| Decimal.DigitsValueOfDecimal | internal/controller/helmrelease_controller.go:131 | the printed digits read back as the number printed |
| Decimal.AtoiIntToDecimal | utils/yaml/yaml.go:128-129 | Atoi of the decimal text of any integer, sign included, is that integer |
| Decimal.NatToDecimalInjective | internal/controller/helmrelease_controller.go:106 | two hashes print to the same text only when they are equal, so comparing the stored text compares the hashes |
| ManifestCodec.DecodeEncode | api/v1/helmchart_webhook.go:108-109 | a non-empty list in which no manifest contains "\n---\n" and none but the last ends with "\n---" is read back by the controller's split exactly as the webhook joined it |
| ManifestCodec.EncodeDecode | controllers/helmchart_controller.go:125-126 | joining what the split returns gives back the stored text |
| ManifestCodec.NoSeparatorIsNotEnough | api/v1/helmchart_webhook.go:108-109 | manifests that do not contain the separator can still fail to round-trip: ["a\n---", "b"] is read back as ["a", "---\nb"] |
| Yaml.Objects | utils/yaml/yaml.go:36-60 | an error iff some frame holds a foreign Go type, with the message naming the first such type; otherwise exactly the decodable objects |
| Yaml.YamlToObjects | utils/yaml/yaml.go:36-60 | the loop returns the Objects result: decoded objects in order, undecodable frames skipped, the first foreign type aborting |
| Yaml.AllDecoded | utils/yaml/yaml.go:36-60 | when every frame decodes, the objects are the frames' objects one for one, in order |
| Yaml.AnnotationVersion | utils/yaml/yaml.go:119-132 | a missing or unparsable "version" annotation counts as 0 |
| Yaml.AnnotationVersionOfDecimal | utils/yaml/yaml.go:128-129 | an annotation written in decimal reads back as its value |
| Yaml.CreateObjectSpec | utils/yaml/yaml.go:71-78 | without a fault the object exists afterwards; an existing object is left as it is; AlreadyExists, from the store or from the client, is not an error; nothing but that key can appear |
| Yaml.CreateObject | utils/yaml/yaml.go:71-78 | the new store and error are those of CreateObjectSpec |
| Yaml.CreateStepEffect | utils/yaml/yaml.go:104-133 | one iteration never changes an existing object, adds at most the object's own key, and on a healthy cluster creates it without error |
| Yaml.CreateIfAbsent | utils/yaml/yaml.go:104-133 | one iteration: Get, then create on NotFound, report other errors, leave existing objects whatever their versions |
| Yaml.CreateObjects | utils/yaml/yaml.go:104-133 | the loop produces the store and accumulated error text of CreateAll over the objects in order |
| Yaml.CreateOrUpdateSpec | utils/yaml/yaml.go:96-140 | a decoding error is returned with the store untouched |
| Yaml.CreateOrUpdateFromBytes | utils/yaml/yaml.go:96-140 | the store and error are those of CreateOrUpdateSpec on the decoded frames |
| Yaml.CreateAllKeepsExisting | utils/yaml/yaml.go:104-133 | whatever the cluster answers, objects that already exist are never modified, even when the manifest carries a higher version |
| Yaml.CreateAllOnlyAdds | utils/yaml/yaml.go:104-133 | every object that appears is one of the input objects, stored as that object |
| Yaml.CreateAllHealthy | utils/yaml/yaml.go:104-137 | on a healthy cluster no error text accumulates and every input object exists afterwards |
| Yaml.CreateAllConcat | utils/yaml/yaml.go:104-133 | running the loop over front then back is running it over front and then over back from the resulting store, the error texts concatenated |
| Helm.Filtered | utils/helm/helm.go:66-70 | keeps exactly the rendered files whose name neither ends in ".txt" nor starts with "_", with their contents |
| Helm.FilterFiles | utils/helm/helm.go:66-70 | deleting keys while ranging over the map yields Filtered |
| Helm.FilteredIdempotent | utils/helm/helm.go:66-70 | filtering a filtered map changes nothing |
| Helm.GetManifests | utils/helm/helm.go:50-79 | the pipeline locate, load, values, render, filter, sort yields Manifests |
| Helm.ExcludedFilesIgnored | utils/helm/helm.go:61-78 | renders that differ only in notes and partials give the same manifests |
| Helm.ManifestsErrors | utils/helm/helm.go:50-79 | the first failing step among locate, load, values, render and sort decides the result, which is that step's error unchanged |
| Helm.ManifestsSuccess | utils/helm/helm.go:50-79 | a success means every step succeeded, and the manifests are the sorter's list for the filtered render |
| Store.MergeFinalizers | controllers/helmchart_controller.go:180 | server-side apply keeps every stored finalizer, in order and first, and adds each declared one; a finalizer is in the result iff it was stored or declared |
| Store.PatchSettled | controllers/helmchart_controller.go:180 | on a settled store with no fault, an apply keeps every key, stores the applied object under its own and leaves the store settled |
| HelmDogController.DeleteProtocol | controllers/helmdog_controller.go:128-170 | touches only the given resource; leaves a "keep"-annotated object or a CRD untouched; a missing resource is no error; a fault on the first Get is returned unless it is NotFound; on a healthy cluster removes any unprotected resource without error |
| HelmDogController.DeleteResource | controllers/helmdog_controller.go:128-170 | Get, the keep and CRD guards, Delete, re-Get and finalizer removal yield DeleteProtocol |
| HelmDogController.DeleteResources | controllers/helmdog_controller.go:109-126 | the backward loop yields DeleteResourcesSpec: every resource tried from last to first, the failures joined with "," into one error |
| HelmDogController.Reconcile | controllers/helmdog_controller.go:55-107 | the store and error are those of ReconcileSpec |
| HelmDogController.DeleteAllCons | controllers/helmdog_controller.go:113-119 | sweeping the list from position i handles element i after all the later ones, and its failure message comes last |
| HelmDogController.DeleteAllLast | controllers/helmdog_controller.go:113-119 | the last element of the list is handled first, before the rest |
| HelmDogController.SweepStep | controllers/helmdog_controller.go:113-119 | one iteration of the backward loop extends the sweep of the later elements by element i and its failure message |
| HelmDogController.DeleteProtocolToleratesNotFound | controllers/helmdog_controller.go:128-170 | when every scripted fault is NotFound, at the first Get, the Delete, the second Get or the Update, deleting a resource reports no error |
| HelmDogController.DeleteAllToleratesNotFound | controllers/helmdog_controller.go:109-126 | when every scripted fault is NotFound, the sweep records no failure |
| HelmDogController.DeleteAllFrame | controllers/helmdog_controller.go:109-126 | a resource not in the list is neither created, removed nor changed |
| HelmDogController.DeleteAllNeverCreates | controllers/helmdog_controller.go:109-126 | the sweep never brings a resource into existence |
| HelmDogController.DeleteAllKeepsProtected | controllers/helmdog_controller.go:142-149 | "keep"-annotated objects and CRDs survive the sweep unchanged |
| HelmDogController.DeleteAllHealthy | controllers/helmdog_controller.go:109-126 | on a healthy cluster the sweep reports no failure and leaves the cluster healthy |
| HelmDogController.DeleteAllRemoves | controllers/helmdog_controller.go:109-170 | on a healthy cluster every listed unprotected resource is gone afterwards, finalizers or not |
| HelmDogController.DeleteAllConcat | controllers/helmdog_controller.go:109-126 | sweeping front + back is sweeping back and then front, the failure lists concatenated in that order |
| HelmDogController.FinalizersStayOnSweepFailure | controllers/helmdog_controller.go:67-71 | when a deleting HelmDog's sweep fails, the joined failure is returned and the HelmDog keeps its finalizers |
| HelmDogController.HealthyDeletion | controllers/helmdog_controller.go:67-82 | on a healthy cluster a deleting HelmDog is removed with no error, and so is every unprotected resource in its spec |
| HelmDogController.NothingRemovedIsNoop | controllers/helmdog_controller.go:89-92 | when the status lists nothing that the spec dropped, reconcile changes nothing |
| HelmDogController.EmptyStatusNeverAdvances | controllers/helmdog_controller.go:84-92 | a HelmDog whose status is empty is never updated, so its status stays empty |
| HelmDogController.EmptySpecIsNoop | controllers/helmdog_controller.go:84-87 | outside deletion, a HelmDog with an empty spec changes nothing, even when its status still lists resources |
| HelmDogController.RemovedSweep | controllers/helmdog_controller.go:89-104 | only the dropped resources and the HelmDog can change; a failed sweep leaves the HelmDog as it was; on success the status equals the spec |
| HelmChartController.Prepare | controllers/helmchart_controller.go:143-172 | a mapping error is returned; an empty namespace of a namespaced kind becomes the chart's; an object left in the chart's namespace fails exactly when its owner reference cannot be set, with that error, and otherwise gets the chart as controller; the object is tracked iff it lies outside the chart's namespace |
| HelmChartController.ApplyStep | controllers/helmchart_controller.go:142-184 | a preparation error is returned with the store untouched; a failure tracks nothing |
| HelmChartController.ApplyStepStores | controllers/helmchart_controller.go:142-184 | on a settled cluster with no fault, an object that prepares is stored under its key with its body, annotations and finalizers; every other object and every key is kept |
| HelmChartController.ApplyStepSettled | controllers/helmchart_controller.go:142-184 | one iteration keeps a settled cluster with no fault settled and without faults, whether or not the manifest prepares |
| HelmChartController.ApplyManifest | controllers/helmchart_controller.go:142-184 | one loop iteration yields ApplyStep |
| HelmChartController.ApplyManifests | controllers/helmchart_controller.go:142-184 | the loop yields ApplyAll: each manifest applied in order, the first failure returned |
| HelmChartController.ApplyAllTracked | controllers/helmchart_controller.go:162-172 | when no step fails, the tracked list is exactly the manifests that land outside the chart's namespace, in order |
| HelmChartController.TrackedOutsideNamespace | controllers/helmchart_controller.go:162-172 | no tracked resource lies in the chart's namespace |
| HelmChartController.ApplyAllConcat | controllers/helmchart_controller.go:142-184 | applying a + b is applying a and then, unless it failed, b from the resulting store |
| HelmChartController.ApplyAllAbort | controllers/helmchart_controller.go:180-183 | once a manifest fails, the later manifests are not applied |
| HelmChartController.ApplyAllFrame | controllers/helmchart_controller.go:142-184 | an object that no manifest targets is neither created, removed nor changed |
| HelmChartController.ApplyAllHealthy | controllers/helmchart_controller.go:142-184 | on a healthy cluster the loop keeps it healthy and fails exactly when some manifest cannot be prepared |
| HelmChartController.ApplyAllFirstError | controllers/helmchart_controller.go:142-184 | on a healthy cluster a failed loop reports the error of the first manifest that cannot be prepared |
| HelmChartController.ApplyAllSettled | controllers/helmchart_controller.go:142-184 | on a settled, healthy cluster no key is lost, the cluster stays settled, and after a successful loop every prepared manifest's key is present |
| HelmChartController.ApplyAllStores | controllers/helmchart_controller.go:142-184 | after a successful loop on a settled, healthy cluster each key carries the body, annotations and finalizers of the last manifest applied under it |
| HelmChartController.ApplyAllStoresFirst | controllers/helmchart_controller.go:142-184 | after a successful loop, the first manifest's object is still stored as it declared when no later manifest targets its key |
| HelmChartController.FetchManifests | controllers/helmchart_controller.go:108-136 | no object changes; with webhooks off, the renderer's result; with webhooks on, a missing Secret gives the fixed "no manifests secret" error, another Get failure its own message, a Secret without the "manifests" key the "format is incorrect" error, and otherwise the split of that key's value |
| HelmChartController.GetManifestsFor | controllers/helmchart_controller.go:108-136 | Secret lookup or rendering yields FetchManifests |
| HelmChartController.CachedManifestsRoundTrip | controllers/helmchart_controller.go:122-126 | a Secret holding the encoding of cacheable manifests yields those manifests |
| HelmChartController.MissingCacheAppliesNothing | controllers/helmchart_controller.go:116-119 | with webhooks enabled and no Secret, the fixed error is returned and only the HelmChart itself (its finalizer) can change |
| HelmChartController.BadSecretAppliesNothing | controllers/helmchart_controller.go:123-129 | with webhooks enabled and a Secret without the "manifests" key, the fixed error is returned and only the HelmChart itself (its finalizer) can change |
| HelmChartController.ApplyFailureWritesNoDog | controllers/helmchart_controller.go:180-214 | when a manifest cannot be prepared, the reconcile fails before the HelmDog is written, so the HelmDog stays as it was |
| HelmChartController.AddFinalizerSpec | controllers/helmchart_controller.go:96-103 | a chart that already has the finalizer is not updated; a successful update leaves the finalizer on it |
| HelmChartController.CleanResources | controllers/helmchart_controller.go:219-226 | deletes the HelmDog of the same name, NotFound ignored |
| HelmChartController.FinalizerKeptWhenCleanFails | controllers/helmchart_controller.go:76-82 | when deleting the HelmDog fails with anything but NotFound, that error is returned and the HelmChart keeps its finalizer |
| HelmChartController.CleanToleratesNotFound | controllers/helmchart_controller.go:219-226 | a HelmDog delete answered NotFound is no error, and no object appears |
| HelmChartController.HealthyChartDeletion | controllers/helmchart_controller.go:76-94 | on a healthy cluster a deleting chart marks its HelmDog deleting and loses the operator finalizer |
| HelmChartController.DogWritten | controllers/helmchart_controller.go:186-214 | on a healthy cluster a non-empty tracked list is applied as the HelmDog spec; the HelmDog carries the finalizer, keeps its other finalizers and its status, and a new HelmDog has this finalizer only |
| HelmChartController.StaleDogKept | controllers/helmchart_controller.go:186-214 | when the chart no longer deploys anything outside its namespace, the HelmDog is left as it was |
| HelmChartController.Reconcile | controllers/helmchart_controller.go:64-217 | the store and error are those of ReconcileSpec |
| HelmChartWebhook.ConvertToSARExtra | api/v1/helmchart_webhook.go:166-176 | nil stays nil; any other map is copied entry for entry |
| HelmChartWebhook.ReviewFor | api/v1/helmchart_webhook.go:143-157 | the review asks verb "*" on the object's namespace, group, version and mapped resource, for the requesting user's identity |
| HelmChartWebhook.Permission | api/v1/helmchart_webhook.go:138-164 | a mapping error is returned as it is; otherwise the result is the authorizer's answer to the review for the user on the mapped resource |
| HelmChartWebhook.CheckPermission | api/v1/helmchart_webhook.go:138-164 | the method yields Permission |
| HelmChartWebhook.DenyReason | api/v1/helmchart_webhook.go:98-105 | the authorizer's reason when it gave one, otherwise "not allowed to create " followed by the kind |
| HelmChartWebhook.CheckManifests | api/v1/helmchart_webhook.go:90-106 | the loop yields Gate |
| HelmChartWebhook.GateAllowsAll | api/v1/helmchart_webhook.go:90-106 | the gate admits iff every manifest, moved to the chart's namespace, is allowed for the user |
| HelmChartWebhook.FirstRefusalDecides | api/v1/helmchart_webhook.go:90-106 | the first refused manifest decides the answer, with its reason, whatever follows |
| HelmChartWebhook.OtherOperationsAllowed | api/v1/helmchart_webhook.go:83-135 | operations other than Create and Update are allowed with nothing written |
| HelmChartWebhook.RefusalWritesNothing | api/v1/helmchart_webhook.go:90-106 | a refused or errored check writes no Secret |
| HelmChartWebhook.StoreCacheSpec | api/v1/helmchart_webhook.go:108-132 | only the Secret can change; the answer is Allowed or a BadRequest error |
| HelmChartWebhook.StoreCache | api/v1/helmchart_webhook.go:110-132 | create, falling back to update on AlreadyExists, yields StoreCacheSpec |
| HelmChartWebhook.StoreCacheHealthy | api/v1/helmchart_webhook.go:122-132 | on a healthy cluster the Secret holds the encoded manifests afterwards and the request is allowed |
| HelmChartWebhook.Handle | api/v1/helmchart_webhook.go:61-136 | the store and response are those of HandleSpec |
| HelmChartWebhook.GateEffectiveAllowsAll | controllers/helmchart_controller.go:151-155 | a gate that checks each object in the namespace the controller will use admits iff all those objects are allowed |
| HelmChartWebhook.OverwrittenNamespaceAdmitsForeignObject | api/v1/helmchart_webhook.go:92 | a manifest pinned to kube-system is admitted for a user allowed only in the chart's namespace, while the effective check refuses it |
| HelmReleaseController.SplitAddress | internal/controller/helmrelease_controller.go:154-157 | an address without ':' is the slice panic; otherwise reference + ":" + version is the address and the version holds no ':' |
| HelmReleaseController.StatusAfter | internal/controller/helmrelease_controller.go:131-138 | the status records the hash in decimal, a revision that parses back to the release version, "name-version" and the deploy time or creation time |
| HelmReleaseController.RunRelease | internal/controller/helmrelease_controller.go:148-206 | a bad address is the panic; otherwise the install or upgrade action runs on the split reference and version |
| HelmReleaseController.RemoveRelease | internal/controller/helmrelease_controller.go:81-96 | the store, error and Helm actions are those of RemoveSpec |
| HelmReleaseController.Deploy | internal/controller/helmrelease_controller.go:98-143 | the store, error and Helm actions are those of DeploySpec |
| HelmReleaseController.Reconcile | internal/controller/helmrelease_controller.go:68-146 | the store, error and Helm actions are those of ReconcileSpec |
| HelmReleaseController.NotFoundIsNoop | internal/controller/helmrelease_controller.go:74-76 | a missing release is no error and runs no action |
| HelmReleaseController.DeletionUninstallsFirst | internal/controller/helmrelease_controller.go:81-96 | a deleting release is uninstalled; a failed uninstall keeps the finalizer; on a healthy cluster a successful one removes it |
| HelmReleaseController.UnchangedSpecIsNoop | internal/controller/helmrelease_controller.go:99-109 | when the stored hash matches the spec's, nothing is run or written |
| HelmReleaseController.ChangedSpecRunsOneAction | internal/controller/helmrelease_controller.go:111-128 | a changed spec runs exactly one action, install when no hash was stored and upgrade otherwise; a failed action writes nothing |
| HelmReleaseController.SuccessfulActionSettles | internal/controller/helmrelease_controller.go:130-143 | after a successful action the status holds the spec's hash, so the next reconcile runs nothing |
| EndToEnd.CacheRoundTrip | api/v1/helmchart_webhook.go:108-132 | what the webhook admits and caches is exactly what the HelmChart controller then reads back |
| EndToEnd.GateAdmitsObjectAppliedElsewhere | api/v1/helmchart_webhook.go:92 | the webhook admits a manifest that the controller then applies in a namespace where the user is not authorized |
| EndToEnd.AppliedObjectsAuthorized | controllers/helmchart_controller.go:151-155 | with the gate checking effective namespaces, every object the controller prepares is authorized for the user |
| EndToEnd.TrackedResourcesHandedToDog | controllers/helmchart_controller.go:162-202 | on a healthy cluster the HelmDog's spec is exactly the resources applied outside the chart's namespace |

## Left out

- Logging, contexts, the controller-runtime manager, watches, requeueing and
  concurrency are left out. Each reconcile is one sequential run against the
  store.
- `main.go` and `utils/cert/cert.go` are not part of this model. They cover
  start-up and webhook certificates.
- The Kubernetes API server is not part of this model. `Store` is an abstract
  stand-in for it:
  - server-side apply (`Patch` with `client.Apply`) merges the declared
    annotations and finalizers into the stored ones, keeps the deletion mark
    and a HelmDog's status, and replaces the rest of the body. Field ownership
    is not tracked, so an annotation or finalizer that a later manifest no
    longer declares stays on the object;
  - `Store.Settled`, no object marked deleting with no finalizer left, is the
    API server's own invariant. `ApplyStepStores`, `ApplyAllSettled` and
    `ApplyAllStores` assume it of the starting store;
  - owner references are recorded but do not cascade deletions;
  - the status subresource is an update of the whole object;
  - resource versions and conflicts are only arbitrary faults.
- These parameters are opaque functions whose behaviour is not modelled: the
  YAML parser, the RESTMapper, the SubjectAccessReview authorizer, the Helm
  library (locate, load, values, render, sort), the Helm install, upgrade and
  uninstall actions, and `hashstructure`.
  - Helm actions do not write to the modelled store.
  - `utils.ManifestsSecretName` and `utils/constant` are not part of this
    model. They are the `secretName`, `finalizer` and `operatorNamespace`
    parameters.
- The `WEBHOOKS_ENABLED` environment variable is a parameter string.
- `yaml.YamlToObject`'s error is ignored by its callers, so the parser is
  total. A nil object would panic in Go, and the model does not represent it.
- The admission decoder's failure is an input: `AdmissionRequest.chart` is a
  `Result`.
- `fmt.Errorf(strings.Join(...))` treats the joined text as a format string. A
  `%` inside a resource name would be reformatted; the model keeps the text
  verbatim.
- `Decimal.AtoiIntToDecimal`: does not model `strconv.Atoi`'s 64-bit range
  error. Integers are unbounded, and version annotations are small.
- `HelmReleaseController.SplitAddress`: the Go slice panic on an address
  without ':' is modelled as an error value carrying the panic text. The
  controller does not return such an error.
- `utils/yaml/yaml.go`'s `CreateOrUpdateFromYaml` reads a file; the file read
  is left out.
  - `updateObject` and `deleteObject` are never called from the modelled
    paths and are left out.
  - `getObject` is modelled inside `Yaml.CreateStep`.
- `Yaml.CreateAllOnlyAdds`: it does not say which occurrence wins when two
  objects share a key. A fault on the first create lets a later one create it.
- `HelmDogController.DeleteAllHealthy`: it holds only on a cluster with no
  faults left. `HelmDogController.DeleteAllRemoves` and
  `HelmChartController.HealthyChartDeletion` hold under the same condition.
- The manifests are content strings. `[][]byte` becomes `seq<string>`, with no
  encoding.

Where the code and its documentation differ, the model follows the code:

- The HelmDog deletion path sweeps `Spec.Resources`, not the status
  (controllers/helmdog_controller.go:68).
- The HelmDog status is written only when some resource was dropped
  (controllers/helmdog_controller.go:91-104). Nothing sets the status, so an
  empty status never advances (EmptyStatusNeverAdvances).
- The HelmDog is not re-applied when the tracked list becomes empty
  (StaleDogKept).

## Findings

| source | as written | input that shows it | evidently intended | confidence | as-written member | corrected member |
|---|---|---|---|---|---|---|
| api/v1/helmchart_webhook.go:92 | the webhook sets every manifest's namespace to the chart's before checking permission. The controller keeps a manifest's own namespace (controllers/helmchart_controller.go:151-155) and applies it there | a manifest pinned to namespace kube-system, a chart in namespace team, and an authorizer that allows the user only in team | check each object in the namespace the controller will apply it in: its own, or the chart's when it has none and is namespaced | not executed | EndToEnd.GateAdmitsObjectAppliedElsewhere | EndToEnd.AppliedObjectsAuthorized |
