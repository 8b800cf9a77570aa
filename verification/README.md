# Glance operator: a verified model

This project models the decisions of the Glance operator as transition systems over a small cluster state
and proves what they keep over every run. It covers four parts that depend on each other.

- **The GlanceAPI reconciler.** `ApiPass` states one pass, stage by stage, from the fetched object to the
  deferred status patch; `ApiReconciler` is the controller as a class whose fields it updates in place, proved
  to do exactly that. A pass may fail in any call, and the operator may crash after any write, which keeps the
  effects and loses the status. `ApiRuns` proves the application credential protocol over all runs of passes,
  edits, deletions and secret changes, `ApiReadiness` what is applied and what the Ready condition attests,
  `ApiLiveness` when it is reached, `ApiOutcomes` what a failing pass reports, `ApiClaims` the backend-hash protocol for immutable claim templates. `CacheJobs` has the CronJob loops.
- **The Glance reconciler.** `GlancePass`, `PassEffects` and `GlanceRuns` model the objects written for each API, the mirrored
  status maps and the cleanup, over all runs of admitted updates and possibly failing passes;
  `ParentReconciler` is the controller itself. `Inheritance` is the merge of API templates, `KeystoneEndpoints`
  the registration, `StatusMirror` the values mirrored, `ParentLiveness` when a Glance gets Ready, `Leftovers` the fate of abandoned entries, `PvcAccounting` the storage arithmetic of the design document.
- **The webhook.** `Webhook` has defaulting in place and both validations, `Admission` what they guarantee over
  all runs of requests, `FileStores` the file verdict in terms of the configuration's text, `RouteAnnotations` the
  annotation state machine.
- **The parser and the pod builder.** `EnabledBackends` is the parser of the raw service configuration, on the
  string operations of `Text`; `PodBuilder` builds volumes, mounts and claims, `PodMounts` proves the pod
  closed, and `PodContents` says what is in it, in names and paths.

Several natural claims are false of the code. For each there is the exact condition under which it holds (an
if and only if), and a concrete run or input that breaks it:

| claim | holds if and only if | broken by |
|---|---|---|
| a GlanceAPI holds only the recorded and the wanted secret | no edit replaces a held secret not yet recorded | `Counterexamples.RapidRotation` |
| the StatefulSet has the claim templates of the stored hash | under a changed hash, no pass that stores its status failed to delete a StatefulSet with other templates, and no pass that loses its status created one with templates other than those of the old hash | `Counterexamples.FailedDeletion`, `Counterexamples.LostHash` |
| a complete pass leaves exactly the objects of the spec | no API was re-added in another layout over its old objects | `ParentCounterexamples.ReAddedWithAnotherLayout` |
| every status entry belongs to an object | no pass deletes the last object behind an entry and then loses its status | `ParentCounterexamples.LostDeletion` |
| a deployed GlanceAPI whose calls all succeed and whose pods come up gets Ready | its topology is still referred to, or has left no condition that is not True | `Counterexamples.FormerTopology` |
| the webhook's file verdict is that of the deployed configuration | the API has no configuration, or one that lists stores, or the top level is File | `SpecCounterexamples.SplitDeployedOnFile` |
| an admitted split API with replicas is not deployed on File | it has no configuration of its own, or one that lists stores, or the top level is File | `SpecCounterexamples.SplitDeployedOnFile` |
| an admitted name gives a legal revision label | the name leaves the layout's overhang unused | `Admission.RevisionLabelTight` |
| every mount names something declared | what extraMounts propagates to the pod does | `SpecCounterexamples.OpenPod` |

## Conventions

- Outcomes of calls to the cluster, to other services and to libraries are chosen by an oracle: they are
  parameters of a pass. A run-time panic (an index out of range in the parser and in the loops over stores) is
  `None`, or a pass that dies with its status lost; a panicking webhook refuses the request.
- Assumed of the cluster and the library: CreateOrPatch of a StatefulSet whose claim templates would change is
  refused, as the API server refuses it, rather than applied with the old templates (the StatefulSet then stays
  as it was; `NeverRefused`, `WedgedStays` and the claims part of `ReadyIsSound` rest on this). Only a change of a
  spec is a new generation.
- Library calls are contracts: hashes are injective; adding or removing a consumer finalizer is idempotent and
  a no-op on an empty name; resetting the listed conditions makes them Unknown and leaves the others (so a
  topology's condition outlives its reference); a
  mirrored condition is not True unless all mirrored ones are (so the parent's Ready, itself Unknown when
  mirrored, becomes True only by the explicit mark); a secret attached to a pod is one volume and mounts of that
  volume; a sorted order is some order.
- A failing call has no effect, unless it is a crash after the write. Where the code ignores the error of a read
  (the CronJobs, their pods), the failure is an outcome of its own.
- Iteration over a Go map picks any remaining key, so results hold for every order.
- Objects of one Glance are identified by API name and type; `ChildNameInjective` shows their names are then
  distinct. A pass is atomic but for its crash points.

## Model

| member | source | states |
|---|---|---|
| `EnabledBackends.GetEnabledBackends` | api/v1beta1/common_types.go:197-217 | the loop over lines returns what the specification of the parser says, or panics where it does |
| `EnabledBackends.FirstKeyLineDecides` | api/v1beta1/common_types.go:201-214 | the first enabled_backends line alone decides; comments, other keys and all later lines are ignored |
| `EnabledBackends.EmptyAndPanicExactly` | api/v1beta1/common_types.go:197-217 | the list is empty iff no line has the key; the parser panics iff the first line with the key has no `=` |
| `EnabledBackends.RoundTrip` | api/v1beta1/common_types.go:197-217 | printing a list of stores with any padding, earlier lines and later text, and parsing it, gives the list back |
| `GlanceTypes.ConsumerFinalizerInjective` | api/v1beta1/glanceapi_types.go:186-191 | two GlanceAPIs never share a finalizer name, whatever hyphens their names contain |
| `GlanceTypes.ChildNameInjective` | internal/controller/glance_controller.go:1039 | within a Glance the object name determines API and type |
| `GlanceTypes.NamesSpelled` | internal/controller/glance_controller.go:1039 | the names of objects, StatefulSets, status keys and finalizers, spelled out |
| `GlanceTypes.EndpointKeyInjective` | internal/controller/glance_controller.go:897-898 | a status key determines API and endpoint |
| `Webhook.Glance.Default` | api/v1beta1/glance_webhook.go:62-158 | in-place defaulting gives the same result for every iteration order of the API map |
| `Webhook.Glance.DefaultTop` | api/v1beta1/glance_webhook.go:69-133 | no storage request means external storage; an empty API map gets the default API, endpoint and configuration |
| `Webhook.Glance.DefaultApi` | api/v1beta1/glance_webhook.go:135-149 | one step of the loop changes the schedules and the timeout of that key only |
| `Webhook.Glance.DefaultApis` | api/v1beta1/glance_webhook.go:135-149 | the loop defaults every API and adds or removes none |
| `Webhook.Glance.IsValidKeystoneEP` | api/v1beta1/glance_webhook.go:75-84 | the search succeeds iff keystoneEndpoint names a present API that is not an edge one |
| `Webhook.Glance.ValidateNames` | api/v1beta1/glance_webhook.go:258-275 | an error for exactly the keys that are no label within the corrected length |
| `Webhook.Glance.ValidateTopologyAndBackend` | api/v1beta1/glance_webhook.go:325-331 | exactly the topology and file-backend errors of one API |
| `Webhook.Glance.ValidateApis` | api/v1beta1/glance_webhook.go:322-341 | the loop collects exactly the errors of all APIs, and panics iff one configuration makes the parser panic |
| `Webhook.Glance.ValidateCreate` | api/v1beta1/glance_webhook.go:252-352 | the returned errors are exactly those of a creation |
| `Webhook.Glance.ValidateApiUpdate` | api/v1beta1/glance_webhook.go:422-460 | a new key skips overrides and probes, a kept one must keep its layout |
| `Webhook.Glance.ValidateUpdate` | api/v1beta1/glance_webhook.go:355-472 | the returned errors are exactly those of an update |
| `Admission.DefaultIdempotent` | api/v1beta1/glance_webhook.go:94-158 | defaulting twice is defaulting once |
| `Admission.DefaultedShape` | api/v1beta1/glance_webhook.go:94-158 | a defaulted Glance has an API, asks for local storage only with a size, and names its only API as the keystone one |
| `Admission.DefaultedSpelled` | api/v1beta1/glance_webhook.go:69-114 | which top-level field gets which default, and that no other changes |
| `Admission.DefaultedApiSpelled` | api/v1beta1/glance_webhook.go:135-149 | which schedule and timeout each API gets, and that nothing else of it changes |
| `Admission.DefaultApiSpelled` | api/v1beta1/glance_webhook.go:122-133 | the API deployed when none is named |
| `Admission.AdmittedIsAdmissible` | api/v1beta1/glance_webhook.go:258-352 | a validated spec names a present non-edge keystone API, gives no replicated split API the webhook's two-level file verdict, and its names fit |
| `Admission.CleanIsAdmitted` | api/v1beta1/glance_webhook.go:297-472 | a spec that passes every check is admitted, by a creation and by an update that changes no layout |
| `Admission.AdmittedExactly` | api/v1beta1/glance_webhook.go:297-472 | and no other is: both admissions as an iff over the checks of each API, with what an update skips for a new one |
| `Admission.AdmittedNamesAreLabels` | api/v1beta1/glance_webhook.go:258-275 | every object name of an admitted key is made of lower-case letters, digits and inner hyphens |
| `FileStores.VerdictExactly` | api/v1beta1/glance_webhook.go:161-179 | the verdict on any text: one store listed and that of kind file, or none where the level above allows it |
| `FileStores.PrintedVerdict` | api/v1beta1/glance_webhook.go:161-179 | on a printed configuration: whether the only entry `name:kind` has kind file; false for two or more |
| `FileStores.UnlistedVerdict` | api/v1beta1/glance_webhook.go:168-170 | without a key line the flag of the level above |
| `FileStores.AdmittedSplitListsNoFile` | api/v1beta1/glance_webhook.go:182-198 | no admitted replicated split API lists one store of kind file, nor none while the top level does either |
| `FileStores.RefusedExactly` | api/v1beta1/glance_webhook.go:182-198 | and that is exactly what it is refused for |
| `FileStores.DeployableExactly` | internal/controller/glance_controller.go:818-868 | a single API without the location API is deployed exactly if it is on File; a malformed annotation stops any |
| `FileStores.ApiGoesExactly` | internal/controller/glance_controller.go:799-965 | an API's deployment goes through exactly if so and none of its layout's objects is refused |
| `Admission.EveryRunIsAdmissible` | api/v1beta1/glance_webhook.go:297-472 | that holds of whatever is stored after any run of creates, updates and deletes |
| `Admission.KeptApiKeepsLayout` | api/v1beta1/glance_webhook.go:443-446 | an API present throughout a run keeps the layout it was added with |
| `Admission.RevisionLabelExactly` | api/v1beta1/glance_webhook.go:509-519 | the revision label exceeds the checked length by exactly the layout's overhang; it is legal iff that much is left |
| `Admission.RevisionLabelTight` | test/functional/validation_webhook_test.go:249-279 | 63 for single, 67 for edge and 70 for split are reached by admitted names |
| `RouteAnnotations.Route.SetDefaultRouteAnnotations` | api/v1beta1/glance_webhook.go:483-506 | the branches amount to: a human's value stays and the flag goes, else both are set |
| `RouteAnnotations.CallsOutcome` | api/v1beta1/glance_webhook.go:483-506 | over any sequence of calls a human's value survives, any other ends equal to the latest timeout, and nothing else changes |
| `RouteAnnotations.SecondsSpelled` | api/v1beta1/glance_webhook.go:483-506 | the value written is the timeout's sign, its decimal digits without a leading zero and an s, so that the number can be read back |
| `RouteAnnotations.CallIdempotent` | api/v1beta1/glance_webhook.go:483-506 | repeating a call changes nothing |
| `Inheritance.AskedExactly` | internal/controller/glance_controller.go:977-1062 | the merged spec, field by field: the API and type, the one image, own values before the top level's, the rest as the API says; and nothing else is |
| `Inheritance.ClaimsSpelled` | internal/glance/pvc.go:20-67 | which claims there are, with name, size, class and annotation |
| `Inheritance.ClaimsHaveSizes` | internal/controller/glance_controller.go:1003-1012 | every claim of every object of a defaulted Glance has a size |
| `Inheritance.VerdictAgreesExactly` | api/v1beta1/glance_webhook.go:161-198 | the webhook's two-level file verdict equals that on the inherited configuration iff the API's is empty, lists stores, or the top level is File |
| `Inheritance.SplitOnFileExactly` | internal/controller/glance_controller.go:1052-1058 | a replicated split API of an admitted spec is deployed on File iff its own configuration is non-empty without a key line and the top level is not File |
| `SpecCounterexamples.SplitDeployedOnFile` | api/v1beta1/glance_webhook.go:182-198 | an admitted split API that is deployed on File |
| `ApiReconciler.GlanceApiReconciler.ReconcilePass` | internal/controller/glanceapi_controller.go:104-216 | a pass, crashes and lost patches included, changes cluster and object exactly as specified |
| `ApiReconciler.GlanceApiReconciler.RunNormal` | internal/controller/glanceapi_controller.go:709-1241 | the stages in order, each early return included |
| `ApiReconciler.GlanceApiReconciler.RunDelete` | internal/controller/glanceapi_controller.go:491-527 | both the recorded and the wanted secret are released, in that order, before the finalizer goes |
| `ApiReconciler.GlanceApiReconciler.PatchInstance` | internal/controller/glanceapi_controller.go:149-168 | only the deferred patch writes the status, with an undecided Ready mirrored |
| `ApiReconciler.GlanceApiReconciler.RefreshBackends` | internal/controller/glanceapi_controller.go:783-808 | a changed storage hash is recorded and deletes the StatefulSet |
| `ApiReconciler.GlanceApiReconciler.CreateHashOfBackendConfig` | internal/controller/glanceapi_controller.go:1481-1520 | reports a change iff the stored hash differs, and stores the new one |
| `ApiReconciler.GlanceApiReconciler.CheckBackends` | internal/controller/glanceapi_controller.go:809-864 | the loop over stores waits for Cinder, and panics on an entry without `:` before it |
| `ApiReconciler.GlanceApiReconciler.ConsumeSecret` | internal/controller/glanceapi_controller.go:1003-1019 | the consumer finalizer is added before anything is deployed |
| `ApiReconciler.GlanceApiReconciler.DeployStatefulSet` | internal/controller/glanceapi_controller.go:1063-1097 | the StatefulSet is created or patched, and refused when its claim templates would change |
| `ApiReconciler.GlanceApiReconciler.ObserveStatefulSet` | internal/controller/glanceapi_controller.go:1099-1154 | DeploymentReady is decided only for an observed generation |
| `ApiReconciler.GlanceApiReconciler.ReleaseSecret` | internal/controller/glanceapi_controller.go:1214-1231 | the recorded secret is released only when another is wanted and all sub-conditions are True |
| `ApiRuns.NormalSecrets` | internal/controller/glanceapi_controller.go:1003-1231 | a pass adds its finalizer to the wanted secret only, removes it from the recorded one only, and moves the record only when the old one is free |
| `ApiRuns.PassLeavesOthers` | api/v1beta1/glanceapi_types.go:186-191 | on a shared secret no other GlanceAPI's finalizer is touched |
| `ApiRuns.EveryRunKeepsDeployedHeld` | internal/controller/glanceapi_controller.go:1003-1097 | in every run, until deletion, the secret behind the applied StatefulSet carries this GlanceAPI's finalizer |
| `ApiRuns.ExactnessLostExactly` | internal/controller/glanceapi_controller.go:1214-1231 | only the recorded and the wanted secret are held, none once gone: an event breaks this iff it is an edit replacing a held, unrecorded secret |
| `ApiRuns.EveryCalmRunHoldsExactly` | internal/controller/glanceapi_controller.go:499-510 | so it holds over every run without such an edit, crashes included |
| `ApiRuns.FullPassCompletesRotation` | internal/controller/glanceapi_controller.go:1218-1231 | a full pass ends holding exactly the wanted secret, or keeps the old record because something is not ready |
| `ApiRuns.RapidRotationStrands` | internal/controller/glanceapi_controller.go:1218-1231 | a secret so replaced stays held for ever, deletion included, unless asked for again |
| `Counterexamples.RapidRotation` | internal/controller/glanceapi_controller.go:499-510 | the concrete run a, b, c, deleted without errors, with b still held |
| `ApiReadiness.ReadyIsSound` | internal/controller/glanceapi_controller.go:1099-1154 | a persisted Ready means all gates True in this pass, for this generation, and an observed StatefulSet with the replicas, secret, configuration and claims this pass wanted, all replicas ready |
| `ApiReadiness.EveryRunReadyIsSound` | internal/controller/glanceapi_controller.go:1063-1154 | and so it is after every run, field by field |
| `ApiReadiness.PassApplies` | internal/glanceapi/statefulset.go:187 | whatever a pass changes of the StatefulSet, it then has the replicas, secret, configuration and claims asked for; so does any pass that goes through |
| `ApiReadiness.EveryRunReadyServed` | internal/controller/glanceapi_controller.go:1144-1154 | in every run a GlanceAPI Ready for its present generation counts as many ready replicas as it asks for |
| `ApiReadiness.ReadyAppliesNothing` | internal/controller/glanceapi_controller.go:1099-1154 | a pass that ends Ready left the StatefulSet as it was: any change waits for a later pass to see it observed |
| `ApiReadiness.EveryRunReadyAppliesNothing` | internal/controller/glanceapi_controller.go:1099-1154 | and so it is of a pass after any run |
| `ApiLiveness.SettledReadyExactly` | internal/controller/glanceapi_controller.go:1099-1238 | the converse: with every call succeeding and the wanted StatefulSet observed and up, a pass ends Ready, and records the wanted secret, iff no condition of a former topology is in the way |
| `ApiLiveness.BecomesReadyExactly` | internal/controller/glanceapi_controller.go:709-1241 | from any world in agreement two such passes deploy and, once the pods are up, a third ends Ready, under the same iff |
| `ApiLiveness.EveryRunCanBecomeReady` | internal/controller/glanceapi_controller.go:709-1241 | and so they do after every run that kept the agreement |
| `ApiOutcomes.FailureIsReported` | internal/controller/glanceapi_controller.go:709-1097 | the stored status names the first call that failed, as False, and is not Ready |
| `ApiOutcomes.ScanExactly` | internal/controller/glanceapi_controller.go:809-864 | the loop over stores goes through, and waits for Cinder, by the kinds of the entries |
| `ApiOutcomes.DigestExactly` | internal/controller/glanceapi_controller.go:1481-1520 | the hash changes with stores, storage settings and cache size, and nothing else |
| `ApiOutcomes.ObserveExactly` | internal/controller/glanceapi_controller.go:1099-1154 | the network is needed only for pods asked for; DeploymentReady is then decided by the ready replicas |
| `ApiOutcomes.JobsExactly` | internal/controller/glanceapi_controller.go:1156-1211 | labels are needed for local storage only, jobs for a cache only |
| `ApiOutcomes.UnregisteredIsFine` | internal/controller/glanceapi_controller.go:1536-1553 | a GlanceAPI that is not to register waits for nothing in keystone |
| `ApiOutcomes.DeletedExactly` | internal/controller/glanceapi_controller.go:491-527 | a deleted GlanceAPI is gone after a pass exactly if everything was released and stored |
| `ApiLiveness.StuckStays` | internal/controller/glanceapi_controller.go:1028-1057 | a GlanceAPI whose topology reference went while its condition was not True is never Ready until there is a reference again |
| `Counterexamples.FormerTopology` | internal/controller/glanceapi_controller.go:1028-1057 | a concrete run that gets there |
| `ApiReadiness.ObserveAttests` | internal/controller/glanceapi_controller.go:1140-1154 | DeploymentReady means ready replicas equal those asked for, on an observed generation |
| `ApiClaims.NormalClaims` | internal/controller/glanceapi_controller.go:783-808 | what a pass leaves of StatefulSet and hash, by whether the hash changed and the deletion worked |
| `ApiClaims.AgreementLostExactly` | internal/controller/glanceapi_controller.go:1481-1520 | templates stay those of the stored hash over a pass iff, under a changed hash, it neither stored it over a StatefulSet with other templates it failed to delete, nor lost it after creating one with other templates than the old hash's |
| `ApiClaims.RecreatesExactly` | internal/controller/glanceapi_controller.go:784-1097 | after a refresh the pass creates a StatefulSet iff every call up to that succeeds, stated by their outcomes |
| `ApiClaims.RecreatedIsLostExactly` | internal/controller/glanceapi_controller.go:1063-1241 | a pass that recreates the StatefulSet loses its in-memory status iff it crashes right after |
| `ApiClaims.SuccessfulPassAgrees` | internal/controller/glanceapi_controller.go:1774-1799 | neither happens when deletion and patch succeed |
| `ApiClaims.EveryRunAgrees` | internal/glanceapi/statefulset.go:294-309 | so the agreement holds over every such run of edits and early returns |
| `ApiClaims.NeverRefused` | internal/controller/glanceapi_controller.go:1063-1097 | under it no pass asks to change the templates of a live StatefulSet |
| `ApiClaims.FailedDeletionWedges` | internal/controller/glanceapi_controller.go:784-808 | a failed deletion whose status is stored leaves the new hash on the old StatefulSet |
| `ApiClaims.WedgedStays` | internal/controller/glanceapi_controller.go:784-808 | then no number of passes, and no edit but one of the storage settings, replaces it or becomes Ready anew |
| `Counterexamples.FailedDeletion` | internal/controller/glanceapi_controller.go:784-808 | a deployed GlanceAPI, an edit to local storage and one failing deletion end there |
| `Counterexamples.LostHash` | internal/controller/glanceapi_controller.go:784-808 | the same edit with a lost patch leaves the old hash on new templates |
| `CacheJobs.CacheJobController.EnsureImageCacheJob` | internal/controller/glanceapi_controller.go:1608-1662 | one job of the type per annotated volume, on that volume, unless the write is deferred, and no other job changes |
| `CacheJobs.CacheJobController.DeleteJob` | internal/controller/glanceapi_controller.go:1710-1738 | removes both jobs of a volume and only those; one that cannot be read is skipped |
| `CacheJobs.CacheJobController.CleanupImageCacheJob` | internal/controller/glanceapi_controller.go:1666-1707 | removes the readable jobs of annotated volumes whose pod is known to be gone, or all without a cache, and nothing else |
| `CacheJobs.CacheJobController.ReconcileImageCache` | internal/controller/glanceapi_controller.go:1168-1205 | exactly which jobs are there after a pass without error, failing reads and deferred writes included; all other CronJobs are untouched |
| `CacheJobs.JobOutcome` | internal/controller/glanceapi_controller.go:1168-1205 | ensuring and then cleaning up decides each job by what was there, the cache size, the pods and the faults, and puts a written job on its own pod's volume |
| `CacheJobs.JobsSpelled` | internal/controller/glanceapi_controller.go:1619-1640 | the written -cleaner job cleans on the cleaner's schedule, the -pruner job prunes on the pruner's |
| `CacheJobs.JobAfterExactly` | internal/controller/glanceapi_controller.go:1168-1205 | where no read failed and no write was deferred these are existing pods times cleaner and pruner, or none without a cache |
| `CacheJobs.JobNameInjective` | internal/controller/glanceapi_controller.go:1625-1640 | a job name determines pod and type |
| `CacheJobs.ClaimOfPod` | internal/glance/const.go:96-98 | trimming the prefix inverts the StatefulSet's naming of claims |
| `ParentReconciler.GlanceReconciler.MergeTemplate` | internal/controller/glance_controller.go:994-1062 | merging field by field gives the inherited template |
| `ParentReconciler.GlanceReconciler.ApiDeploymentCreateOrUpdate` | internal/controller/glance_controller.go:967-1082 | writes one object with its merged spec and annotation, or nothing when refused |
| `ParentReconciler.GlanceReconciler.ApiDeployment` | internal/controller/glance_controller.go:799-965 | writes one or two objects by layout and mirrors them, with its early returns |
| `ParentReconciler.GlanceReconciler.GlanceApiCleanup` | internal/controller/glance_controller.go:1249-1290 | deletes listed objects of APIs not in the spec, tolerating those already gone, and their status entries, up to the first error or the first object without a label |
| `ParentReconciler.GlanceReconciler.CheckGlanceApisGeneration` | internal/controller/glance_controller.go:1381-1401 | true iff every generation in the namespace is observed, of this Glance's objects and of others; an error when they cannot be listed |
| `ParentReconciler.GlanceReconciler.ReconcilePass` | internal/controller/glance_controller.go:747-793 | a pass changes objects, status and readiness exactly as specified |
| `GlancePass.DeployApisObjects` | internal/controller/glance_controller.go:747-752 | the loop only adds or updates objects the spec stands for, and all of them if it goes through |
| `ParentReconciler.GlanceReconciler.CleanupStep` | internal/controller/glance_controller.go:1272-1287 | one listed object: kept if its API is in the spec, else deleted, or found gone, and its entries forgotten, or an error |
| `PassEffects.DeployFlowExactly` | internal/controller/glance_controller.go:747-752 | how the API loop ends, by the first API whose configuration or write fails |
| `PassEffects.CleanupExactly` | internal/controller/glance_controller.go:1260-1288 | an object is deleted iff it is listed, its API is absent, and no deletion up to its own fails |
| `PassEffects.WalkedExactly` | internal/controller/glance_controller.go:1260-1271 | the cleanup walks exactly the owned objects listed before one without a label |
| `GlancePass.ExpansionSpelled` | internal/controller/glance_controller.go:833-847 | which object types each layout stands for |
| `PassEffects.WorkExactly` | internal/controller/glance_controller.go:747-756 | which objects a pass takes away, when it panics and when it goes through, from the spec and the outcomes of its calls alone |
| `GlancePass.CleanupObjects` | internal/controller/glance_controller.go:1260-1288 | the cleanup removes only objects of absent APIs, and all listed ones if it goes through |
| `GlanceRuns.CompletePassConvergesExactly` | internal/controller/glance_controller.go:747-756 | a complete pass leaves exactly the expansion of the spec iff no object of a current API was stale |
| `GlanceRuns.StaleExactlyByReAdding` | api/v1beta1/glance_webhook.go:435-446 | staleness appears iff an admitted update brings a name back in another layout over its old objects |
| `GlanceRuns.EveryRunConverges` | internal/controller/glance_controller.go:1249-1290 | after any other run, failed passes included, one complete pass leaves exactly the expansion, each object with the API, type, image and every field asked for, and the annotation on the keystone API's alone |
| `GlanceRuns.StrayNeverConverges` | internal/controller/glance_controller.go:1272-1279 | an object its API's layout does not stand for survives every run while the API stays, so no complete pass converges |
| `ParentCounterexamples.ReAddedWithAnotherLayout` | internal/controller/glance_controller.go:1272-1279 | two admitted updates after which, in any continuation that keeps the API, no complete pass converges |
| `GlanceRuns.ReadyMeansObserved` | internal/controller/glance_controller.go:782-791 | a pass that makes the Glance ready has seen every GlanceAPI of the namespace observed at its generation and wrote all of its own |
| `ParentLiveness.ReadyExactly` | internal/controller/glance_controller.go:782-791 | a stored pass makes the Glance ready iff it goes through, all else is in order, and every object it leaves was there, observed, with the spec it writes |
| `ParentLiveness.EveryRunCanBecomeReady` | internal/controller/glance_controller.go:747-793 | after any run: a complete pass, every object observed, and a second such pass ends Ready |
| `StatusMirror.PassKeepsReports` | internal/controller/glance_controller.go:1046-1079 | a pass leaves what the objects report about themselves alone |
| `StatusMirror.ReadyChangesNothing` | internal/controller/glance_controller.go:1381-1401 | a pass that makes the Glance ready created no object and changed the spec of none |
| `StatusMirror.EveryRunReadyChangesNothing` | internal/controller/glance_controller.go:1381-1401 | and so it is of a pass after any run |
| `StatusMirror.CompletePassMirrors` | internal/controller/glance_controller.go:892-952 | after a complete pass every API's ready count is that of its first object and each endpoint shows the url of the object that serves it |
| `GlanceRuns.ForgetExactly` | internal/controller/glance_controller.go:1280-1286 | forgetting an API takes all its entries and none of another's |
| `GlanceRuns.NextTiedExactly` | internal/controller/glance_controller.go:1272-1287 | an event keeps every status entry tied to an object iff it is no pass that deletes the last object behind an entry and loses its status |
| `GlanceRuns.EveryRunAgreesOnStatus` | internal/controller/glance_controller.go:892-952 | after any run without such a pass, a complete pass leaves ready counts for exactly the APIs of the spec and endpoint keys only of those, no public one for edge |
| `Leftovers.LostDeletionAbandons` | internal/controller/glance_controller.go:1272-1287 | a pass that deletes the last object of an API and loses its status leaves all its entries behind |
| `Leftovers.NextEntriesExactly` | internal/controller/glance_controller.go:1273-1286 | an event forgets all entries of such an API, if it is a stored pass that still finds an object of it listed, or else keeps each unchanged |
| `Leftovers.EntriesStayExactly` | internal/controller/glance_controller.go:1273-1286 | over every run that does not use the name they stay unchanged iff there are none or no such pass occurs |
| `ParentCounterexamples.LostDeletion` | internal/controller/glance_controller.go:1272-1287 | one pass from a tied status to entries that stay exactly until such a pass |
| `KeystoneEndpoints.GlanceApiEndpoints.GetGlanceEndpoints` | internal/glanceapi/funcs.go:16-43 | the endpoints and ports of each type |
| `KeystoneEndpoints.GlanceApiEndpoints.CreateServices` | internal/controller/glanceapi_controller.go:541-687 | the urls of all endpoints of the type, or none when one service fails |
| `KeystoneEndpoints.GlanceApiEndpoints.EnsureKeystoneEndpoints` | internal/controller/glanceapi_controller.go:1523-1577 | registers those urls, or withdraws them without the annotation |
| `KeystoneEndpoints.LastUrls` | internal/controller/glanceapi_controller.go:1554-1566 | what stays registered are the urls of the object's last complete pass |
| `KeystoneEndpoints.CoveredOnceExactly` | internal/controller/glance_controller.go:1019-1024 | after a pass of every object, from any registry and in any order, public and internal are each registered once, by the named API and an object of a type that serves it, iff keystoneEndpoint is valid |
| `KeystoneEndpoints.EveryRunCoversOnce` | api/v1beta1/glance_webhook.go:75-84 | so they are after any admitted run of the parent |
| `PvcAccounting.ClaimsAddUp` | docs/design-decisions.md:792-802 | claims times replicas over the produced StatefulSets equal the documented sum over APIs, in number and in size |
| `PvcAccounting.EveryRunAddsUp` | docs/design-decisions.md:792-802 | and they do after any converging run of the parent |
| `PvcAccounting.SplitTwiceSingle` | docs/design-decisions.md:792-802 | the same API asks for exactly twice as much as split than as single |
| `PodBuilder.StatefulSet` | internal/glanceapi/statefulset.go:70-339 | the appends and assignments give the specified pod, or an error iff probes, certificates or a size are bad |
| `PodBuilder.GetVolumes` | internal/glance/volumes.go:32-141 | configuration, extra, secret and Cinder volumes in order |
| `PodBuilder.GetVolumeMounts` | internal/glance/volumes.go:156-286 | the mounts of a serving container in order, by its flags |
| `PodBuilder.GetPvc` | internal/glance/pvc.go:15-70 | name, size, class and annotation of each kind of claim, or an error for a bad size |
| `PodBuilder.GetClaims` | internal/glanceapi/statefulset.go:294-309 | a local claim unless external, a cache claim if sized, an error iff a size is bad |
| `PodContents.WebServer` | internal/glance/volumes.go:199-224 | httpd has the wsgi vhost iff wsgi, and the proxy vhost iff there is a container glance-api behind it; no other container has either |
| `PodContents.ServingData` | internal/glance/volumes.go:226-236 | images at /var/lib/glance from the local claim iff not external, the cache at its path iff sized, in every serving container |
| `PodContents.ServingSecrets` | internal/glanceapi/statefulset.go:121-164 | every certificate and configuration secret is mounted at each of its paths in every serving container |
| `PodContents.HostDirectories` | internal/glance/volumes.go:244-283 | with Cinder every host directory is mounted where the host has it, and every host command is shimmed |
| `PodContents.NoHostDirectories` | internal/glance/volumes.go:68-139 | without Cinder none is |
| `PodContents.StatefulSetSpelled` | internal/glanceapi/statefulset.go:166-309 | name, replicas, host processes, claims and the fixed volumes |
| `PodMounts.MountsClosedExactly` | internal/glanceapi/statefulset.go:116-164 | for every combination of flags every mount names a declared volume or claim iff every mount extraMounts propagates names a volume it propagates or one of the operator's own |
| `PodMounts.DeclaredExactly` | internal/glanceapi/statefulset.go:294-317 | the names a pod declares: the fixed ones, Cinder's, the secrets', the claims' and those extraMounts propagates |
| `SpecCounterexamples.OpenPod` | internal/glance/volumes.go:237-241 | a pod with a mount of nothing, from an entry that mounts a volume it does not bring |
| `PodMounts.ClosedEntriesClosePod` | api/v1beta1/glance_types.go:275-283 | entries that mount only their own volumes always do |
| `PodMounts.ConfigDirFirst` | internal/glance/volumes.go:166-187 | the httpd container of every pod, and the api container where there is one, mount the writable directory before the three configuration files under it |

## Left out

- Admission.AdmittedIsAdmissible: bounds the webhook's own file verdict, not the deployed configuration, which Inheritance.SplitOnFileExactly is about.
- GlanceRuns.ReadyMeansObserved: says nothing about the readiness of each API, since every iteration of the API loop overwrites the same condition.
- ApiRuns.EveryRunKeepsDeployedHeld: the deployed secret is the one behind the applied StatefulSet, not what a restarting pod reads; pod rollout is not modelled, so ready replicas may still be old pods.
- ApiReadiness.ReadyIsSound: sub-conditions set by other services (keystone, network, Cinder) are trusted as reported.
- ApiReconciler.GlanceApiReconciler.ReconcileJobs: the CronJob loops are one outcome here and are modelled in CacheJobs.
- ApiReconciler.GlanceApiReconciler.EnsureKeystoneEndpoints: the registry is one outcome here and is modelled in KeystoneEndpoints.
- ApiReconciler.GlanceApiReconciler.RunNormal: the CronJob loops and the keystone registry are single outcomes here.
- CacheJobs.CacheJobController.ReconcileImageCache: jobs of volumes that no longer exist are not seen by either loop; a failing listing of the volumes is a nil dereference, which a pass of ApiPass has as a crash after the StatefulSet was applied.
- KeystoneEndpoints.EveryRunCoversOnce: counts the registrations of the Glance's own objects; those of deleted objects are left to garbage collection.
- Admission.EveryRunIsAdmissible: service overrides are not part of it, because an update does not check those of a new key; the empty layout escapes the file check, the resource schema fills in split.
- PodBuilder.StatefulSet: environment, probes, commands, affinity, node selector, labels and security contexts of the pod; Go slices are values, so aliasing of appended slices is not captured.
- PodBuilder.GetPvc: the labels and the access mode of the claim.
- ParentReconciler.GlanceReconciler.ReconcilePass: deletion of the Glance, database, message bus, quotas, configuration and purge job are one outcome before or after the API loop.
- Terminating objects: a deleted GlanceAPI is gone at once; Kubernetes garbage collection is not modelled.
- Edits of the api-name label, GlanceAPIs of another Glance, and several Glances whose joined names collide.
- `removeAPIFinalizer` looks objects up under the fixed service name, so no general claim holds of it.
- The topology reference's own finalizer, and the namespace of every object.
- Library internals: conditions, hashing, label and quantity parsing, TLS conversion, probe and override validation.
- Manager setup, watches, indexers, certificates, logging and rendered configuration files.
