# A verified model of the APME operator

This project models the controller that keeps one Apme resource's objects in a Kubernetes namespace, and proves
what it promises about them. The system has three layers here.

- **Computation.** `From` turns a spec into a fully defaulted intent, with a port allocator for plugin sidecars
  (`Resolve`, `PluginPorts`); the manifests turn an intent into a Pod, Services, Routes and Secrets (`Pod`,
  `Manifests`, `Checksum`, `Credentials`, `DatabaseUrl`).
- **The machine.** `Cluster` is the API server: objects with a controller, a deletion mark, an incarnation, fields,
  and the fields the operator applied, under server-side apply, create, update with a resource version, and delete.
  `Plan` splits a reconcile into single API calls. `Machine` is the state machine whose steps are: begin a reconcile,
  one step of the operator (at most one call, which may be refused or may take effect and still report an error),
  a stop of the process, a step of others, and an edit of the spec. `Reach.Reachable` states are those of any such run
  from a store an earlier operator may have served: its objects are under their generated names and refer to nothing
  missing, and its Routes agree with their desired-host annotation where they have one; Routes without the annotation,
  old database URLs and any status are allowed. A new resource's store is one (`Reach.NewResourceInherits`).
- **The code.** `Controller.ApmeReconciler` is the controller as the source has it, method by method, over a
  `Controller.Client` that logs each request. What a method asks of the API server, and what it returns, is its
  contract (`Exchanges`): decision tables over the answers it got, which do not mention the machine. `Refinement` proves
  that whoever asks so is running the machine: each reconcile is a run from the state it began in, asking for the same
  in the same order. So every theorem about reachable states holds of the object (`StateReachable`).

The theorems are in `RouteHosts` and `RouteKeeping` (hosts never move, Routes as asked are kept), `RouteConvergence` and
`RouteRounds` (a measure that falls), `Deletion` and `StaleDelete` (only own Routes go, but for one race), `NoDangling`
(references), `WriteOnce`, `SecretContents` and `TokenKeys` (Secrets), `StatusRuns`, `StatusLaws`, `Readiness` and `ReadyRuns`
(conditions), `Quiescence` (the second reconcile changes nothing), `NonInterference` and `Alone` (two instances),
`Defaults` and `PluginPortLaws` (the intent), `ChecksumLaws`, `Rollout` and `DatabaseUrlLaws`, and for what the manifests
make `PodLaws`, `PodWiring`, `PodVolumes`, `PodReferences`, `Addresses` (who calls whom), `PodFiles` (which Secret, file or
claim reaches whom), `Postgres` (the database's Pod) and `ServiceWiring` (which container a Service, Route or Ingress leads to).

What others may do between two calls is the predicate `Machine.Bystander`: they report status, give a Route a host
while it has none, delete Routes (and put their own in the place), and do as they like with objects the operator does
not control; they do not edit the operator's objects, remove its other objects, or create objects in its name. That
another instance's operator keeps to this is proved (`NonInterference.OperatorIsBystander`).

Four facts about the code that a reader may not expect, each kept as it is: a same-named Route without a controller
is adopted by apply; the Delete of a Route names no incarnation, so a Route put in its place between read and call is
removed (`StaleDelete.StaleDeleteRemovesForeignRoute`, with the exact condition in `Deletion.DeletedRouteIsOwnIff`);
a reconcile that deletes a Route in order to recreate it counts as a success; and the key of a generated Abbenay token can be
edited, but an existing Secret is left as it is, so the Pod then reads a key that is not there
(`TokenKeys.EditedKeyNotFollowed`, with the exact condition in `TokenKeys.TokenReadableIff`). The user guide speaks of
`sslmode=verify-full` (docs/user-guide.md:210); the code writes `ssl=verify-full`, and the model follows the code.

`dafny verify dfyconfig.toml` checks the whole project.

## Model

| member | source | states |
|---|---|---|
| RouteHosts.HostMatchesIntent | internal/controller/routes.go:88-136 | in every reachable state, a nonempty desired-host annotation on a Route the operator controls is that Route's host |
| RouteHosts.HostNeverMoves | internal/controller/routes.go:88-136 | over every run, with failing calls, stops and spec edits: as long as a Route of the operator is not deleted, annotated or left without annotation by an earlier operator, it keeps its host and its owner |
| RouteHosts.LegacyRouteReachable | internal/controller/routes.go:125-135 | an owned Route with any host and no annotation is among what reachable states hold |
| RouteHosts.ApplyKeepsHost | internal/controller/routes.go:96-110 | applying to a Route found fit to keep its name leaves its live host alone, even when it was given one after it was read |
| RouteHosts.PatchedAgrees | internal/manifests/routes.go:26-46 | whatever is adopted, created or updated by an apply ends with host and annotation in agreement |
| RouteHosts.OperatorCarries | internal/controller/routes.go:88-151 | no step of the operator gives an incarnation of a Route another host, or takes it from its owner |
| RouteKeeping.RecreatedIff | internal/controller/routes.go:113-136 | a live Route of the operator is deleted to be recreated exactly when its path is another than asked; or its annotation names another host than the spec; or, without annotation, the spec gives a host and the Route has another |
| RouteKeeping.LiveRouteKept | internal/controller/routes.go:88-136 | a live Route of the operator that is as asked is not deleted: it stays the same object, keeps any host it has, and has the path, annotation and custom host asked for after the pass |
| RouteKeeping.WantedRouteStays | internal/controller/routes.go:88-136 | over every run from any reachable state, whatever fails: such a Route, annotated or not, is never deleted while others spare it and the same is asked of the Routes, and it keeps any host it has |
| RouteKeeping.LegacyRouteStays | internal/controller/routes.go:125-135 | an earlier operator's Route without annotation keeps its incarnation and its assigned host over every run in which no host is asked for |
| RouteConvergence.RoutesConverge | internal/controller/routes.go:47-151 | from any state without a rival controller and however long deletions take: once five rounds have done more than wait for one, and ever after, the Route has the desired path, annotation and custom host, or is not the operator's where none is wanted, and it is not deleted again |
| RouteConvergence.OtherwiseWaiting | internal/controller/routes.go:90-95 | while a Route is not yet as desired, all but four of its rounds have been spent waiting for a deletion |
| RouteRounds.ReconcilesConverge | internal/controller/apme_controller.go:86-202 | once five successful reconciles of one spec have done more for a Route than wait for its deletion, and after every later one, it is as desired |
| RouteRounds.ConvergesToRest | internal/controller/apme_controller.go:65-202 | from any cluster without rival controllers: after those five, one more reconcile that succeeds brings the cluster to rest and the next one changes neither store nor status |
| Quiescence.PassOnRoute | internal/controller/routes.go:47-72 | what a whole ensureAll does to a Route is exactly its own step's pass, for both Routes and whatever else the plan holds |
| RouteConvergence.RoundDecreases | internal/controller/routes.go:88-136 | the measure (adopted, stale, deleting, absent, unannotated, bookkeeping) never rises, and strictly falls in every round that changes the Route or starts away from the goal and does not just wait |
| RouteConvergence.ChangesBounded | internal/controller/routes.go:47-151 | in a history of any length the operator changes a Route in at most as many rounds as its rank, so in at most eight |
| RouteConvergence.DoneStays | internal/controller/routes.go:96-136 | a Route that is as desired is never deleted and keeps its incarnation and host |
| RouteConvergence.PassDecreases | internal/controller/routes.go:88-151 | one pass that is not quiet brings the Route strictly closer, unless it waits for a deletion to finish |
| RouteConvergence.DoneMeets | internal/controller/routes.go:113-136 | the rank is in the final range exactly when the Route meets the desire |
| RouteConvergence.QuietIffAtRest | internal/controller/routes.go:88-151 | a pass leaves a Route as it is exactly when the Route is being deleted, another controller's, or fit with every payload field applied and no other; or, unwanted, not the operator's |
| RouteConvergence.FitApplyTwice | internal/controller/routes.go:101-110 | preserving the live host makes the second apply of a Route no change at all |
| Deletion.OnlyOwnRoutesGo | internal/controller/routes.go:92-98 | the only objects the operator ever removes or marks for removal are Routes it read as its own |
| Deletion.DeletedRouteIsOwnIff | internal/controller/routes.go:146-150 | what a Delete removes is the operator's own Route if and only if the Route was not replaced since it was read |
| StaleDelete.StaleDeleteRemovesForeignRoute | internal/controller/routes.go:88-151 | from every reachable state about to delete a Route of the operator, unwanted or to be recreated: read, replacement by another controller's Route, and Delete are a possible run, and that Route is gone after it |
| StaleDelete.DeleteReachable | internal/controller/routes.go:88-151 | such states are reached by a run, for an unwanted Route and for one wanted at another path |
| Deletion.ForeignRouteUntouched | internal/controller/routes.go:96-110 | a Route of another controller that was not mistaken for its predecessor stays exactly as it is |
| Deletion.OthersSurvive | internal/controller/apme_controller.go:116-139 | over every run and any sequence of mode switches, managed Postgres and everything else under a generated name but Routes stays |
| NoDangling.NoDanglingReferences | internal/controller/apme_controller.go:86-202 | in every reachable state each operator-named object that a stored Deployment, StatefulSet, Route or Ingress refers to is in the store |
| NoDangling.DeploymentReferencesPresent | internal/manifests/deployment.go:49-151 | each Secret, ConfigMap, claim and ServiceAccount named by the Pod of the stored Deployment is in the store or was named by the user |
| NoDangling.RouteLeadsToService | internal/manifests/routes.go:12-18 | the Service a stored Route targets is in the store |
| NoDangling.IngressLeadsToServices | internal/manifests/ingress.go:10-22 | the Service of every backend of the stored Ingress is in the store |
| References.NeedsComeFirst | internal/controller/apme_controller.go:86-202 | whatever a step makes its object refer to is provided by an earlier step of the same plan, for all toggles |
| References.OperatorProgress | internal/controller/apme_controller.go:103-202 | what the steps done so far provide is still there at every later point of the reconcile |
| PodReferences.RefersOnlyToKnown | internal/manifests/deployment.go:69-151 | the Pod refers to nothing but what the operator generates and what the user named |
| PodReferences.RefersToGenerated | internal/manifests/deployment.go:69-151 | and it does refer to everything the operator generates for it |
| WriteOnce.SecretsWrittenOnce | internal/controller/apme_controller.go:228-335 | over every run, a Secret of the operator, an earlier operator's included, stays, stays its own and keeps all its data, except that a database URL becomes its verify-full form, once and for all |
| WriteOnce.GeneratedSecretsNeverChange | internal/controller/apme_controller.go:228-335 | over every run, a Secret with a settled URL, as every one this operator creates has, keeps all its data: passwords, tokens, TLS material and URL |
| WriteOnce.SecretStep | internal/controller/apme_controller.go:247-264 | a step changes an existing Secret in no way but one: the URL of the database Secret becomes its verify-full form |
| WriteOnce.RewrittenOnce | internal/controller/apme_controller.go:256-263 | a rewritten URL is never rewritten again |
| WriteOnce.CreatedSettled | internal/manifests/postgres/statefulset.go:23-59 | the URL in a generated database Secret is a fixed point of the rewrite |
| SecretContents.CreatedCredentials | internal/manifests/postgres/statefulset.go:23-59 | the database Secret as created: its URL is built of the user, password and database under its own keys, the Service's host and verify-full, and the password is the one drawn |
| SecretContents.CreatedSecretsHold | internal/controller/apme_controller.go:228-335 | over every run, a Secret the operator made or took over in it holds what it was created with: credentials that agree with the URL, the three TLS keys, a nonempty admin token |
| Postgres.GatewayLogsIn | internal/manifests/postgres/statefulset.go:144-152 | over every run, with a database Secret the operator created in it: the URL Gateway reads logs in as the user, with the password and to the database that the managed database's container reads from the same Secret, at its Service |
| Postgres.ServerListensThere | internal/manifests/postgres/statefulset.go:23-59 | the database's container listens on the port that the generated URL names and its one Service leads to |
| Postgres.ServerRefers | internal/manifests/postgres/statefulset.go:118-182 | the database's Pod refers to exactly what the operator generates for it, and to the TLS Secret if the user named it |
| Postgres.ServerVolumesFit | internal/manifests/postgres/statefulset.go:128-182 | each mount is of a shared volume or the data claim, and the certificates the server reads are on the volume into which the init container copies those of the TLS Secret |
| SecretContents.CallsCreateCredentials | internal/controller/apme_controller.go:228-245 | the calls of ensurePostgresSecret leave a Secret they created with agreeing credentials |
| SecretContents.CallsGiveTLS | internal/controller/apme_controller.go:266-289 | after the calls of ensurePostgresTLS without error, certificate, key and CA are each under their own key, as drawn if they were created |
| SecretContents.CallsGiveProxyToken | internal/controller/apme_controller.go:311-335 | after the calls of ensureProxyAdminTokenSecret without error, an owned Secret holds a token under the key the Pod reads, the one drawn if it was created |
| SecretContents.CallsGiveAbbenayToken | internal/controller/apme_controller.go:291-309 | a created Abbenay token Secret holds the token drawn under the key the Pod reads |
| TokenKeys.TokenReadableIff | internal/controller/apme_controller.go:291-309 | after ensureAbbenayToken the token can be read under the key the Pod reads if and only if the Secret was missing or already had text under that key |
| TokenKeys.EditedKeyNotFollowed | internal/controller/apme_controller.go:291-309 | a Secret made for one key has nothing under another one given in a later edit, however often the step is done again |
| ObjectNames.GeneratedDisjoint | internal/resolve/desired.go:182-211 | instances with different names share no generated name of any kind |
| ObjectNames.SuffixFree | internal/manifests/services.go:24-56 | within a kind no generated suffix is a proper suffix of another |
| NonInterference.OperatorIsBystander | internal/controller/apme_controller.go:103-202 | any step of one instance is, to another in the namespace, something a bystander may do |
| NonInterference.EachRunsItsMachine | internal/controller/apme_controller.go:65-84 | in every interleaving of two instances each one's part is a run of its own, so every result about one holds for both |
| Alone.RunsAsIfAlone | internal/controller/apme_controller.go:65-84 | in every interleaving an instance whose specs name none of the other's objects has the control state, status and objects it has when it runs alone |
| Quiescence.SecondReconcileChangesNothing | internal/controller/apme_controller.go:65-84 | once the Routes have converged, the second of two reconciles leaves the whole store and the whole status as they are, though the clock moved |
| Quiescence.SecondPassRests | internal/controller/apme_controller.go:86-101 | once the Routes have converged, the second ensureAll computes the same outcome and changes nothing, not even a resource version |
| Quiescence.RestingRoutesSuffice | internal/controller/apme_controller.go:86-202 | a reconcile that succeeds and leaves its Routes at rest is followed by ones that change nothing |
| Quiescence.RestingRoutesNeeded | internal/controller/apme_controller.go:180-202 | conversely, a Route that is not at rest makes some next reconcile change the store |
| Quiescence.PassRests | internal/controller/apme_controller.go:103-202 | a pass that succeeds leaves every one of its items with nothing to do, but for Routes that are not at rest |
| Quiescence.DatabaseSlotSettled | internal/controller/apme_controller.go:228-264 | after the step for it the database Secret holds a URL that needs no rewrite |
| Passes.PassIsRun | internal/controller/apme_controller.go:65-84 | a reconcile in which nothing fails, computed as a function, is the machine's run from idle to idle |
| StatusRuns.ReadyIsEarned | internal/controller/apme_controller.go:375-414 | in every reachable state in which the operator has reported, the conditions agree, and Ready names a generation whose ensureAll succeeded without a leftover StatefulSet, with Degraded and Progressing false and DatabaseReady true |
| StatusRuns.SuccessMeansWholePlan | internal/controller/apme_controller.go:73-83 | a success is recorded only when every item of the plan for that generation's spec is done |
| StatusRuns.NeverLeftoverWithError | internal/controller/apme_controller.go:204-207 | in every reachable state a leftover is reported only without an error and only in External mode |
| StatusRuns.TransitionTimes | internal/controller/apme_controller.go:364-373 | over every run each condition carries the time of the report at which it last flipped, or the one it started with if it never did |
| StatusRuns.FinishLeftover | internal/controller/apme_controller.go:345-349 | only the look for a leftover StatefulSet reports one, and it reports what it saw |
| Readiness.ReportSaysWhatWasFound | internal/controller/apme_controller.go:375-446 | in the looks themselves: DatabaseReady is true exactly when the user's Secret was found, or the StatefulSet with one ready replica or more; Ready exactly when moreover the Deployment was found with one, the reconcile ended well and nothing was left over; Progressing is false exactly with Ready |
| Readiness.ReportSaysWhy | internal/controller/apme_controller.go:375-446 | the reasons and Degraded, in the looks, the ending and the Pods' image pull state |
| Readiness.ReportSaysWhere | internal/controller/apme_controller.go:502-529 | the reported URL is that of the Route leading to the UI, or to the Gateway without a UI, as found: the host admitted, else the Route's own, else the Ingress host |
| ReadyRuns.ReadyWasUp | internal/controller/apme_controller.go:375-446 | over every run in which the operator has reported: a status that says Ready means that the Deployment had a ready replica at some point of the run, and the managed database too, or that the external Secret was there |
| StatusLaws.ReportIsCoherent | internal/controller/apme_controller.go:384-411 | whatever the old status: Ready is the negation of Progressing, Ready excludes Degraded, and Ready holds exactly on success with both workloads up and no leftover |
| StatusLaws.CoherentNeedsNoImagePull | internal/controller/apme_controller.go:384-411 | the report is coherent if and only if a ready Deployment is not reported with an image pull error |
| StatusLaws.ConditionAfter | internal/controller/apme_controller.go:364-373 | each condition after a report: as judged, and stamped now exactly when new or flipped |
| StatusLaws.TransitionTimeIsLastFlip | internal/controller/apme_controller.go:364-373 | over every history of reports from any status a condition's transition time is that of its last flip, if it ever flipped |
| StatusLaws.ReportAgain | internal/controller/apme_controller.go:355-414 | reporting the same findings later leaves the status identical |
| Status.PatchConditions | internal/controller/apme_controller.go:375-412 | the branches of patchStatus yield the judged status, reason and generation for each condition |
| Status.ImagePullMessage | internal/controller/apme_controller.go:451-486 | the container found is the first in visiting order with an image pull failure, and none is found exactly when there is none |
| Controller.Client.Ask | internal/controller/apme_controller.go:221-226 | each request is logged as it was served: its answer's fate, the store before it, and the store once others have acted after it |
| Controller.Client.Call | internal/controller/apme_controller.go:221-226 | the error and reply are the API server's, and the new store is the call's effect on the old one followed by what others may do |
| Controller.Client.Get | internal/controller/apme_controller.go:230-236 | a read finds the object, or misses it with not found, or fails |
| Controller.ApmeReconciler.ApplyAll | internal/controller/apme_controller.go:104-113 | the objects are applied in the order given, up to the first error and no further |
| Controller.ApmeReconciler.ApplyCore | internal/controller/apme_controller.go:103-114 | ServiceAccount, sessions claim and cache claim are applied, in that order and up to the first error |
| Controller.ApmeReconciler.EnsureDatabase | internal/controller/apme_controller.go:116-139 | in External mode one look; in Managed mode the calls for TLS, Secret, config, StatefulSet, Service and policy, in that order and up to the first error |
| Controller.ApmeReconciler.EnsureAbbenay | internal/controller/apme_controller.go:141-159 | the calls for token, config and claim, as the toggles call for them, in order and up to the first error |
| Controller.ApmeReconciler.ReadDeploymentInputs | internal/controller/apme_controller.go:162-179 | the token is read, then the CA bundle if one is configured; anything missing or unusable is an error and ends the reading |
| Controller.ApmeReconciler.ApplyDeploymentWith | internal/controller/apme_controller.go:180-182 | the one call applies the Deployment with the checksum of the eight inputs, which `Rollout` ties to each of them |
| Controller.ApmeReconciler.ApplyWorkload | internal/controller/apme_controller.go:161-202 | the Deployment is applied only with both inputs read, then Services, Ingress and policy, and the Routes last, up to the first error |
| Controller.ApmeReconciler.EnsurePostgresSecret | internal/controller/apme_controller.go:228-245 | a missing database Secret is created with a fresh password, which is then the one under its key and in its URL; an existing one has only its URL looked at, any other error ends it |
| Controller.ApmeReconciler.EnsurePostgresURLTLS | internal/controller/apme_controller.go:247-264 | the URL is updated, against the version read, exactly when its verify-full form differs; one that cannot be rewritten is an error |
| Controller.ApmeReconciler.EnsurePostgresTLS | internal/controller/apme_controller.go:266-289 | an existing TLS Secret must hold its three keys and is left alone; a missing one is created only if the operator generates it, each material under its key |
| Controller.ApmeReconciler.EnsureAbbenayTokenSecret | internal/controller/apme_controller.go:291-309 | an existing token Secret is left alone, a missing one created with the token drawn under the key the Pod reads |
| Controller.ApmeReconciler.EnsureProxyAdminToken | internal/controller/apme_controller.go:311-335 | without error an existing admin token is the operator's own and not empty, and is left alone; a missing one is created with the token drawn under the key the Pod reads |
| Controller.ApmeReconciler.ManagedPostgresExists | internal/controller/apme_controller.go:345-349 | one look, and the flag is whether it found the StatefulSet: any error counts as absent |
| Controller.ApmeReconciler.EnsureRoutes | internal/controller/routes.go:47-72 | the calls for the UI Route and then the API Route, each wanted or unwanted by the toggles, up to the first error |
| Controller.ApmeReconciler.ApplyOrRecreateRoute | internal/controller/routes.go:88-111 | a missing Route is applied as desired, an existing one treated by its state, and a failing look does nothing |
| Controller.ApmeReconciler.ApplyToExisting | internal/controller/routes.go:90-107 | no call for a Route being deleted, a Delete for an owned one that has to be recreated (when that is: `RouteKeeping.RecreatedIff`), and else an apply with the live host kept |
| Controller.ApmeReconciler.DeleteOwnedRoute | internal/controller/routes.go:138-151 | a Delete exactly when the Route was read as owned; not found is success, at the look and at the Delete |
| Controller.ApmeReconciler.WrapRouteApplyErr | internal/controller/routes.go:74-86 | a Route error is a permission error exactly when it is forbidden and a custom host is set or the message is about custom hosts; no error stays none |
| Controller.ApmeReconciler.KeepLiveHost | internal/controller/routes.go:101-107 | the live host joins the payload exactly when the resource gives none and there is one |
| Controller.ApmeReconciler.EnsureAll | internal/controller/apme_controller.go:86-101 | ensureAll makes the calls for the whole plan of the intent, in order and up to the first error, and returns the leftover it saw |
| Controller.ApmeReconciler.BuildPublicURL | internal/controller/apme_controller.go:502-529 | the URL shows the admitted host, else the Route's own, else the Ingress host, and is empty exactly when there is none of these |
| Controller.ApmeReconciler.PatchStatus | internal/controller/apme_controller.go:355-446 | Route, database and Deployment are looked at in turn, failing looks counting as absent; unless the patch is refused, the conditions, reasons and URL say what was found: Ready only with a ready replica of each workload |
| Controller.ApmeReconciler.Reconcile | internal/controller/apme_controller.go:65-84 | however calls fail, the reconcile is a run of the machine from the state it began in that asks for the same in the same order, and it returns without error exactly when the whole plan was done and reported |
| Refinement.ReconcilePlays | internal/controller/apme_controller.go:65-84 | read, calls of ensureAll, looks and patch of any reconcile are the requests of one possible run of the machine, with its store, status and records |
| Refinement.PlanPlays | internal/controller/apme_controller.go:86-202 | the calls of ensureAll, told from their answers, are those of a run that does the plan up to the first error |
| Refinement.SuccessIsRecorded | internal/controller/apme_controller.go:71-83 | a reconcile without error has itself added its generation and leftover to the successes, and a report that says so |
| Cluster.PatchedFields | internal/controller/apme_controller.go:221-226 | server-side apply field by field: payload wins, own fields now omitted go, those of others stay |
| Cluster.PatchedTwice | internal/controller/apme_controller.go:221-226 | applying the same payload again changes nothing, not even the version |
| Manifests.RouteUnstructured | internal/manifests/routes.go:12-48 | host and path appear only when nonempty, the desired-host annotation always |
| Manifests.EngineServicePorts | internal/manifests/services.go:30-45 | the Engine's own port always and a validator's exactly when it is on, each once and in ascending order |
| Manifests.ServicePortsListened | internal/manifests/services.go:23-52 | every port of every Service that selects the APME Pod is listened on in that Pod |
| PlanLaws.ItemsMembers | internal/controller/apme_controller.go:86-202 | a reconcile does exactly the steps its toggles call for |
| PlanLaws.WriteKeysDistinct | internal/controller/apme_controller.go:86-202 | no two steps of one reconcile write the same object |
| PlanLaws.WritesOwnKey | internal/controller/apme_controller.go:86-335 | a step writes its own generated object, whatever names the user chose |
| Frames.StepsAreGenerated | internal/controller/apme_controller.go:86-335 | no call of the operator touches a name that is not generated for its instance |
| PluginPorts.ResolvePlugins | internal/resolve/desired.go:224-269 | sorted by name, explicit ports kept, and each auto plugin gets the port its rank among the auto plugins calls for |
| PluginPorts.Advance | internal/resolve/desired.go:252-264 | the cursor stops at the next port that is free, or past the range |
| PluginPortLaws.AutoPortIsKthSmallest | internal/resolve/desired.go:244-265 | the k-th auto plugin by name has exactly k free ports below its own, and port 0 exactly when there are not that many |
| PluginPortLaws.OrderIndependent | internal/resolve/desired.go:222-269 | any order of the plugin list resolves to the same output |
| PluginPortLaws.ResolutionIsFixedPoint | internal/resolve/desired.go:222-269 | resolving the output again, its ports now explicit, returns it unchanged |
| PluginPortLaws.NeverExhausted | api/v1alpha1/apme_types.go:54-84 | under the CRD rules every resolved port is in range and no two are equal |
| PluginPortLaws.InsertAuto | internal/resolve/desired.go:244-265 | adding an auto plugin keeps the port of each one before it by name and never lowers a later one |
| PluginPortLaws.InsertExplicit | internal/resolve/desired.go:244-265 | adding an explicit port keeps the auto ports below it and moves each other one to its next free port |
| Resolve.From | internal/resolve/desired.go:109-220 | defaults, database mode, generated names and plugins come out as the intent defined section by section |
| Resolve.ClusterProxyEnv | internal/resolve/desired.go:271-279 | exactly the set variables are handed on, each once |
| Defaults.TogglesDefaultOn | internal/resolve/desired.go:110-160 | each toggle but Abbenay and the Ingress is on unless set to false |
| Defaults.DatabaseChosen | internal/resolve/desired.go:181-203 | the database is the user's exactly when a Secret is named for it, and which Secrets and keys are used and generated in each case |
| Defaults.TokensChosen | internal/resolve/desired.go:110-219 | which tokens, keys and CA bundle are used, and that a token is generated exactly when none is named |
| Defaults.GivenIsKept | internal/resolve/desired.go:109-145 | names, hosts and the version are as given, the version with its default |
| Defaults.SpellingOutChangesNothing | internal/resolve/desired.go:109-220 | a spec with its defaults written out resolves to the same intent, and writing them out again changes nothing |
| Pod.BuildPod | internal/manifests/deployment.go:23-151 | the Pod assembled under toggles and loops has the containers, init containers and volumes of the definition |
| Pod.BuildEngine | internal/manifests/containers/containers.go:71-118 | the Engine's environment and mounts as they are appended; whom its addresses lead to is `Addresses.EveryAddressAnswered` |
| PodLaws.AdmittedIsSound | api/v1alpha1/apme_types.go:54-84 | every admitted spec resolves to an intent with plugin names and ports unique |
| PodLaws.ContainerNamesUnique | internal/manifests/deployment.go:23-66 | no two containers or init containers have one name, for any plugin list |
| PodLaws.EngineEnvUnique | internal/manifests/containers/containers.go:71-118 | no two Engine environment variables have one name |
| PodLaws.UpperInjective | internal/manifests/containers/containers.go:94-97 | uppercasing plugin names keeps them apart |
| PodWiring.PortsDistinct | internal/manifests/containers/containers.go:70-463 | no two containers of the Pod listen on one port |
| Addresses.EveryAddressAnswered | internal/manifests/containers/containers.go:70-420 | each address variable of each container carries a loopback address whose port the container it names gives as its listen variable, named port, flag or probe for such calls, and on which no other container listens |
| Addresses.EngineKnowsEveryone | internal/manifests/containers/containers.go:71-97 | the Engine has an address variable for every validator and plugin in the Pod, and for the proxy and the Gateway |
| Addresses.ListenVariableIsOwn | internal/manifests/containers/containers.go:70-420 | a listen variable in a container is that container's own, on all interfaces, and no other container listens on its port |
| Addresses.HttpPortIsDeclared | internal/manifests/containers/containers.go:297-348 | the HTTP port in the Gateway's environment is the one it declares as http, which its probes ask |
| PodFiles.CallersAreTold | internal/manifests/containers/containers.go:71-370 | the Gateway is told of the Engine, its two validators and Abbenay, the Ansible validator of the proxy, the UI of the Gateway, as the toggles call for it |
| PodFiles.ReadersAreTold | internal/manifests/containers/containers.go:243-410 | those who read the CA bundles and Abbenay's directories are told where they are |
| PodFiles.IgnoresUnlessVerified | internal/manifests/containers/containers.go:243-251 | the proxy is told to ignore certificates exactly when the user says not to verify them, and told nothing when the user says nothing |
| PodFiles.SecretsReachTheirVariables | internal/manifests/containers/containers.go:71-410 | each variable of each container comes from the Secret and key it is to come from, and no other variable from a Secret |
| PodFiles.TokensAreShared | internal/manifests/containers/containers.go:71-410 | Engine, proxy and Gateway have the admin token, the Gateway the database URL, and Engine, Gateway and Abbenay the Abbenay token |
| PodFiles.PathsShowWhatTheyShould | internal/manifests/deployment.go:68-133 | behind each path mounted by a container or init container is the claim, ConfigMap key, Secret key or scratch volume that path is to show |
| PodFiles.PluginSeesItsConfig | internal/manifests/containers/containers.go:219-241 | a plugin's sidecar mounts its own ConfigMap, if it has one, and nothing else |
| PodFiles.InitsPrepare | internal/manifests/containers/containers.go:270-463 | the volume behind each prepared path is the one that the init container for it, which is in the Pod, fills |
| PodFiles.FilesLieOnMounts | internal/manifests/containers/containers.go:71-410 | each file or directory named in a variable lies below a mount of the volume it is to be on: merged bundles, Abbenay's socket and its configuration |
| ServiceWiring.ServicesLeadToTheirContainers | internal/manifests/services.go:23-52 | each port of the Engine, Gateway and UI Services as applied is one that the probes of a container it is for ask, and on which no container it is not for listens |
| ServiceWiring.DatabaseUrlLeadsToService | internal/manifests/postgres/statefulset.go:23-38 | the managed database's URL names the Service applied for it, whose one port is 5432 |
| ServiceWiring.RouteLeadsToItsContainer | internal/manifests/routes.go:59-70 | a wanted Route targets a Service applied earlier in the same plan, behind which is the UI or the Gateway alone |
| ServiceWiring.RoutesDoNotClash | internal/manifests/routes.go:59-70 | the two Routes share the host and differ in path; alone, the API Route is at the root |
| ServiceWiring.ReportedRouteIsWanted | internal/controller/apme_controller.go:502-529 | the Route whose host is reported is a wanted one and leads to the UI if there is one, else to the Gateway |
| ServiceWiring.IngressLeadsToContainers | internal/manifests/ingress.go:10-24 | the Ingress sends / to the UI and /api to the Gateway, or / to the Gateway without a UI, each to a port of a Service of the plan on which that container alone listens |
| PodVolumes.DeclaredIffNeeded | internal/manifests/deployment.go:68-133 | a volume is declared exactly when the toggles and plugins call for it |
| PodVolumes.VolumeNamesUnique | internal/manifests/deployment.go:68-133 | no two volumes have one name |
| PodVolumes.EveryMountDeclaredOnce | internal/manifests/containers/containers.go:98-462 | every mount of every container names exactly one declared volume |
| PodVolumes.EveryVolumeMounted | internal/manifests/deployment.go:68-133 | every declared volume is mounted by some container |
| PodVolumes.EngineToldOnce | internal/manifests/containers/containers.go:94-97 | the Engine has exactly one address variable for each plugin, with that plugin's port |
| PodVolumes.SidecarExists | internal/manifests/containers/containers.go:219-241 | each plugin has a sidecar container of its name |
| PodVolumes.SidecarUsesThatPort | internal/manifests/containers/containers.go:219-241 | each plugin's sidecar listens on, and is probed at, that one port |
| Checksum.Sum | internal/manifests/labels.go:54-60 | the loop computes the FNV-1a digest of the newline-terminated parts |
| ChecksumLaws.StreamInjective | internal/controller/apme_controller.go:180-181 | different parts give different byte streams when all but the last are free of newlines |
| ChecksumLaws.StepBijective | internal/manifests/labels.go:54-60 | each FNV-1a step is a bijection on 64-bit states |
| ChecksumLaws.StatesStayApart | internal/manifests/labels.go:54-60 | states that differ stay different over any common rest |
| ChecksumLaws.OneByteChangeDetected | internal/controller/apme_controller.go:180-181 | streams of one length that differ in one byte always give different annotations |
| Rollout.InputChangeDetected | internal/controller/apme_controller.go:180-181 | a change of one letter of any one of the eight inputs, names, keys, version, token and CA bundle, gives the Deployment another checksum |
| Rollout.TokenChangeDetected | internal/controller/apme_controller.go:180-181 | a token that differs in one letter gives the Deployment another checksum |
| Rollout.CAChangeDetected | internal/controller/apme_controller.go:180-181 | so does a CA bundle that differs in one letter |
| Rollout.SameBytesSameInputs | internal/controller/apme_controller.go:180-181 | the hashed bytes are the same only for the same eight inputs, when none but the CA bundle holds a newline |
| Rollout.ChecksumIsOfThem | internal/controller/apme_controller.go:180-181 | the checksum is the digest of those bytes |
| Rollout.RollsIffChecksumDiffers | internal/controller/apme_controller.go:180-182 | applying the Deployment with another checksum changes the stored one, and with the same one does not |
| Rollout.TokenOrCAChangeRolls | internal/controller/apme_controller.go:180-182 | so a token or CA bundle that differs in one letter changes the stored Deployment, and its Pod is rolled |
| Credentials.RandomToken | internal/controller/apme_controller.go:337-343 | a token has as many letters as bytes drawn, all of the URL-safe alphabet |
| Credentials.TokenKeepsEntropy | internal/manifests/postgres/statefulset.go:61-67 | truncation keeps three quarters of the bytes drawn: the token determines them |
| DatabaseUrl.WithVerifyFullTLS | internal/manifests/postgres/statefulset.go:72-82 | the method computes the rewritten URL, its query encoded in sorted key order |
| DatabaseUrlLaws.ParseInvertsEncode | internal/manifests/postgres/statefulset.go:77-80 | parsing an encoded query gives back its values, each key's in order |
| DatabaseUrlLaws.VerifyFullValues | internal/manifests/postgres/statefulset.go:72-82 | the result has no sslmode, one ssl=verify-full and every other parameter unchanged |
| DatabaseUrlLaws.VerifyFullIdempotent | internal/manifests/postgres/statefulset.go:72-82 | rewriting a rewritten URL changes nothing |
| DatabaseUrlLaws.OwnUrlIsFixedPoint | internal/manifests/postgres/statefulset.go:28-38 | the URL the operator generates is left as it is |
| DatabaseUrlLaws.OwnBaseText | internal/manifests/postgres/statefulset.go:23-37 | the generated password appears verbatim in the URL |

## Left out

- Deletion of the Apme resource, finalizers and garbage collection by owner reference: the resource lives on.
- Stale reads: a Get answers from the live store, while the manager's client reads through a cache.
- The message texts of errors and conditions: kept are which reason was chosen and whether there was an error.
- X.509 and PEM: a TLS Secret is its three keys, `usableCA` stands for the CA bundle checks; the hostname list is not part of the model.
- Randomness: the bytes, passwords, tokens and TLS material drawn are inputs; a failing random source is only in `Credentials.RandomToken`.
- Images, sizes, resources, probes' timings, scripts, pull secrets, labels and security contexts: the intent hands them on in one opaque setting, and objects without references keep the intent itself as content.
- Field ownership by several managers of one field: apply is always forced, so the operator's field set is enough here.
- Full URL syntax: what surrounds the query is read by an uninterpreted codec, of which only that it reads back what it prints is used; that net/url reads the generated URL as it stands is the condition `WriteOnce.ReadsOwnUrls`.
- Text as bytes: strings are sequences of characters, and where encoding matters each stands for one byte.
- The list of Pods behind an unready Deployment: the machine takes its verdict as an input; the nested search itself is `Status.ImagePullMessage`.
- Requeue times, watches, leader election, metrics and process set-up (cmd/main.go), RBAC, kustomize and the e2e tests.
- Quiescence.SecondReconcileChangesNothing: takes a cluster that stands still between the two reconciles, including the Pods' image pull state, and a database URL of bytes that net/url reads back as printed.
- RouteRounds.ReconcilesConverge: takes reconciles that succeed and no rival controller of the Route; between them others may give it a host, delete it or finish its deletion, and report on it.
- Alone.RunsAsIfAlone: takes specs that name no object generated for the other instance; naming one, say as an external database Secret, makes the reads depend on it.
- WriteOnce.SecretsWrittenOnce: is about Secrets under the operator's control and URLs of bytes; a Secret the user put under the generated name beforehand may be rewritten by the user at any time.
- SecretContents.CreatedSecretsHold: is about Secrets the operator came to own in the run, and for URLs takes `WriteOnce.ReadsOwnUrls`; what an earlier operator's Secret holds is left as it is.
- RouteKeeping.WantedRouteStays: takes others that do not delete the Route, and edits that keep wanting it with the same host and path.
- StatusRuns.ReadyIsEarned: begins with the operator's first report; before it the status is whatever an earlier operator wrote.
- Controller.ApmeReconciler.Edit: edits come between reconciles in the object; in the machine they come at any time.
- The loops over objects in ensureDatabase and ensureAbbenay: written as successive calls in the source, they are lists given to `ApplyAll` here.
