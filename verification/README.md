# Staged canary rollouts and request serving: a Dafny model

The system serves model requests from a fleet whose control plane moves a model from one version to the next
in stages: `pending`, `canary_1`, `canary_10`, `canary_50`, `stable`. Three stores describe what is live and no
transaction spans them: the rollout table, the registry's active pointer, and the etcd envelope that the serving
side follows. Every service call reads a row, publishes to etcd, and only then writes the row back under a
compare-and-swap. Promotions, aborts, creations, registrations and several reconcilers may be in flight at once,
and any of them may stop between two accesses.

This project models that protocol, the two caches fed by etcd, the weighted routing they produce, and the small
concurrent machines on the request path: circuit breaker, admission gauge, request limiter, fan-out of a
coalesced call, and the metered stream. `dafny verify dfyconfig.toml` checks all of it.

## How the files fit together

| file | content |
|---|---|
| Prelude, Stages | options, results, the staged sequence and its table |
| Protocol | shared state; every service call as a program of single store or etcd accesses (`Step`) |
| Interleaving | any number of calls interleaved access by access; the inductive invariant |
| Safety, Overtaking | what holds in every interleaving, crash points included; what a late access can overwrite |
| Serial, Agreement, Closeness | calls run one at a time, completed or cut short; agreement of the three stores and its repair |
| Races | concrete interleavings that break the stronger claims, and the exact conditions |
| Services | the service and store classes, each method proved equal to the protocol's call |
| Reconciler | the automatic driver: gates, evidence, termination |
| Keys, Caches, Routing, Delivery | etcd keys, the two manifest caches, and routing end to end |
| Breaker, Admission, Broadcast, RateLimit, Streaming | the machines on the request path |

`Protocol.Step` is the one definition of what a call does. Interleaving runs it in arbitrary order, Serial runs
it call by call (`Serial.SerialIsInterleaved` shows that this is a special case), and the methods of the classes
in Services are proved to compute the same thing. Histories of rows exist only to state properties.

## Where the code gives less than its comments suggest

* Publishing before the compare-and-swap means that a call which loses the race has already changed etcd. An
  abort can be overtaken: `Races.AbortedCanaryStaysLive` ends with ten percent of traffic on an aborted canary.
  `Overtaking.EndSticksIff` says, for every reached state, exactly when the end of a rollout sticks;
  `Safety.PublishMatchesRow` and `Safety.EndingMatchesRow` speak about a publish and an update with nothing in
  between.
* The check for a running rollout and the insert are separate: `Races.TwoRolloutsRun`. `Races.OneRunningLostIff`
  says which access breaks the rule.
* "The first registered version becomes active" is a check followed by a write: `Races.RegistrationReplacesLive`, with
  the exact condition in `Overtaking.RegistrationReplacesIff`.
* After a promotion that stopped half way, an abort leaves the registry pointer on the new version:
  `Races.RegistryLeftBehind`, with the exact condition in `Agreement.NextCallRepairs`.
* A creation that stops before it publishes can leave etcd on something else altogether: `Races.PendingNotClose`,
  with the exact condition in `Closeness.PendingCloseIff`.
* Two checks of the circuit breaker that overlap can both be given the one trial: `Breaker.OverlappingTrialsIff`.
* A request that is slow between its two counter commands can restart an expired window's count:
  `RateLimit.LateIncrementRestarts`, with the exact condition in `RateLimit.OverrunIff`.
* The signed text is delimited, not escaped: `Protocol.SignedPayloadUniqueIff`.
* A manifest signed for one model and version is served under whatever key it is found at:
  `Caches.ServedAsSignedIff`.
* The two caches read an incomplete document differently: `Caches.ManifestReadAlikeIff` and
  `Caches.ActiveReadAlikeIff`.

## Model

| member | source | states |
|---|---|---|
| Stages.NextStage | services/control-plane/internal/rollout/rollout.go:101-111 | The search over the stage list finds the stage of the next rank; there is none exactly after the last one. |
| Protocol.Lookup | services/control-plane/internal/registry/registry.go:215-240 | A read succeeds exactly when the named (or, for an empty version, the active) manifest exists and its signature verifies; it returns that version and nothing else, and reports a bad signature iff the manifest exists. |
| Protocol.StepProgress | services/control-plane/internal/rollout/rollout.go:385-482 | No call can loop: each access strictly lowers a bound on the accesses left, which is zero exactly when it has its outcome. |
| Protocol.SignedPayloadUniqueIff | services/control-plane/internal/registry/registry.go:94-96 | A signed text belongs to one manifest only iff none of version, model and spec holds the delimiter; otherwise another split of the same text has the same signature. |
| Interleaving.HistoryShape | services/control-plane/internal/rollout/rollout.go:88-111 | A chain of legal writes has at most five versions, visits the stages in order, is promoted exactly at `stable`, ended exactly when over, and keeps its identity columns. |
| Interleaving.NoAba | services/control-plane/internal/rollout/cockroach_store.go:106-150 | No earlier version of a row has the stage of a running one, so comparing stage and status compares versions. |
| Interleaving.CasMeansUntouched | services/control-plane/internal/rollout/cockroach_store.go:131-150 | A snapshot passes the stage-and-status test exactly when it still equals the whole current row. |
| Interleaving.RowWrite | services/control-plane/internal/rollout/rollout.go:422-446 | A row-writing access does nothing or puts one legal new version on top of exactly the version its call read. |
| Interleaving.StepVerified | services/control-plane/internal/registry/registry.go:135-240 | If the stores and a call in flight name only verified versions, they still do after any access of that call. |
| Interleaving.RunKeepsInv | services/control-plane/internal/rollout/rollout.go:209-482 | Every interleaving of calls, crashes, clock ticks and rows written around the service keeps the whole invariant: histories, snapshots, writers, signatures, sanctions and envelopes. |
| Safety.OneStageAhead | services/control-plane/internal/rollout/rollout.go:385-482 | In every interleaving a live percentage is 0, 1, 10 or 50, and a positive one belongs to a rollout of exactly that canary and stable version whose recorded stage is the one before it or later. |
| Safety.RowsWalkTheStages | services/control-plane/internal/rollout/rollout.go:88-111 | In every interleaving a row's versions are a contiguous walk through the stages; promoted iff stable; ended iff not running; at most four updates ever succeed. |
| Safety.OneVerdictOneAdvance | services/control-plane/internal/rollout/cockroach_store.go:131-150 | In every interleaving each stage is left by at most one successful write, by different calls, and an automatic call only ever moves the stage it was issued for. |
| Safety.CasSucceedsIffUntouched | services/control-plane/internal/rollout/cockroach_store.go:131-150 | The update of a call in flight commits exactly when the row is the one it read; otherwise it changes nothing and reports the conflict. |
| Safety.NoBypass | services/control-plane/internal/registry/registry.go:135-204 | In every interleaving every active, stable or canary version is a manifest whose signature verifies, and a stable one was bootstrapped by a registration that saw no live version or had reached 50 percent. |
| Safety.PublishMatchesRow | services/control-plane/internal/rollout/rollout.go:436-441 | When nothing comes between a publish and its update, etcd describes the row afterwards iff the row was the one read or another call had made the same move. |
| Safety.EndingMatchesRow | services/control-plane/internal/rollout/rollout.go:417-477 | The same for the publish and update that end a rollout; what happens when other calls come in between is Overtaking.EndSticksIff. |
| Safety.RunGrows | services/control-plane/internal/rollout/cockroach_store.go:131-150 | Whatever happens next, recorded histories are only ever extended. |
| Safety.TerminalRowsFrozen | services/control-plane/internal/rollout/rollout.go:398-409 | A rollout that is over never changes again, whatever is still in flight. |
| Safety.UpdateWrites | services/control-plane/internal/rollout/cockroach_store.go:131-150 | In every interleaving a successful update writes exactly: the next stage (promoted iff stable) or the kept stage with the revert's status, the present moment as stage entry, and as end iff the row is over; everything else stays. |
| Safety.RowTimes | services/control-plane/internal/rollout/rollout.go:421-477 | In every interleaving a row began no later than it entered its stage, and one that is over ended at the moment of its last write, one that runs has no end. |
| Overtaking.LastPublishIsLive | services/control-plane/internal/rollout/rollout.go:417-477 | In every interleaving the live envelope of a model is the one its last publishing access carried, and there is none iff nothing was published. |
| Overtaking.EndSticksIff | services/control-plane/internal/rollout/rollout.go:417-477 | For a rollout that is over, in every reached state: etcd shows how it ended and goes on showing it until another rollout publishes for the model iff the last publish for the model carried that end and no call in flight holds a snapshot from which it will publish anything else for the rollout. |
| Overtaking.LastActivationIsLive | services/control-plane/internal/registry/cockroach_store.go:35-42 | In every interleaving the active version of a model is the one its last activation carried. |
| Overtaking.RegistrationReplacesIff | services/control-plane/internal/registry/registry.go:160-184 | In every reached state an access of a registration replaces a live version iff it is its activation, another activation of the model landed after its own check, and the last of them carried another version. |
| Serial.StepsComplete | services/control-plane/internal/rollout/rollout.go:385-482 | Enough accesses of an undisturbed call finish it with the result of running it to the end. |
| Serial.ServeMeans | services/control-plane/internal/rollout/rollout.go:209-482 | Access by access and in one piece, an undisturbed call does the same thing. |
| Serial.SoloCall | services/control-plane/internal/rollout/rollout.go:385-482 | From any reached state, scheduling only one call's accesses moves state and call exactly as that call alone does. |
| Serial.SerialIsInterleaved | services/control-plane/internal/rollout/rollout.go:209-482 | Every history of completed or crashed calls is an interleaving, so everything in Safety holds of it. |
| Agreement.ServeAgrees | services/control-plane/internal/rollout/rollout.go:209-257 | Each completed call, accepted or refused, keeps at most one running rollout per model, pointer and captured stable version equal, and the envelope exactly that of the row or of the pointer. |
| Agreement.CompletedCallsAgree | services/control-plane/internal/rollout/rollout.go:209-257 | The same after every history of completed calls from the empty deployment, registrations and rows written around the service included. |
| Agreement.AnswersMeanWhatTheySay | services/control-plane/internal/rollout/rollout.go:209-482 | Starting from agreement, what each answer (advanced, reverted, registered, refused) says about the whole state before and after, field by field and store by store. |
| Agreement.RefusedIff | services/control-plane/internal/rollout/rollout.go:209-482 | From any state, each error is returned exactly for its reason, in the order the code checks them, and a refused call changes nothing. |
| Agreement.StepCrashOk | services/control-plane/internal/rollout/rollout.go:421-477 | Each single access of an undisturbed call keeps etcd within one move of every running row. |
| Agreement.CrashedCallsStayClose | services/control-plane/internal/rollout/rollout.go:421-477 | Whatever calls stop wherever, the envelope of a running rollout past `pending` is that of its stage, of the next one, or the reverted one. |
| Agreement.NextCallRepairs | services/control-plane/internal/rollout/rollout.go:264-296 | The next promote, abort, automatic advance or automatic rollback (from the recorded stage) that completes on a running rollout succeeds and makes etcd describe the row exactly; the registry pointer agrees too iff it is not a revert over a half-done activation. |
| Closeness.PendingCloseIff | services/control-plane/internal/rollout/rollout.go:209-257 | Whatever calls stop wherever: a running rollout still at `pending` is within one move of etcd iff some call has published for it since its creation, or etcd already showed, before it, the active version alone or with this very canary at one percent. |
| Races.AbortedCanaryStaysLive | services/control-plane/internal/rollout/rollout.go:436-477 | An interleaving after which a rollout is recorded as aborted and its canary has ten percent of the traffic. |
| Races.TwoRolloutsRun | services/control-plane/internal/rollout/rollout.go:225-250 | An interleaving of two creations that leaves two rollouts of one model running. |
| Races.OneRunningLostIff | services/control-plane/internal/rollout/rollout.go:225-250 | An access of any call breaks "one running rollout per model" iff it inserts a row beside a running one. |
| Races.RegistrationReplacesLive | services/control-plane/internal/registry/registry.go:160-184 | An interleaving of two first registrations in which the second replaces a live version without any rollout. |
| Races.RegistryLeftBehind | services/control-plane/internal/rollout/rollout.go:417-428 | A half-done promotion followed by an abort leaves the pointer on the new version while etcd serves the old one. |
| Races.PendingNotClose | services/control-plane/internal/rollout/rollout.go:236-257 | After that, a creation that stops before publishing leaves a pending row more than one move away from etcd. |
| Services.RolloutStore.InsertRollout | services/control-plane/internal/rollout/cockroach_store.go:23-29 | Inserts exactly the given row, or refuses a taken id or an empty version and changes nothing. |
| Services.RolloutStore.GetRollout | services/control-plane/internal/rollout/cockroach_store.go:31-37 | Returns the row iff the id exists. |
| Services.RolloutStore.GetRunningRolloutByModelRef | services/control-plane/internal/rollout/cockroach_store.go:39-46 | Finds a row iff some rollout of the model runs, and then the latest-started of them. |
| Services.RolloutStore.ListRunningRollouts | services/control-plane/internal/rollout/cockroach_store.go:48-67 | Lists every running rollout exactly once with its current row, and nothing else. |
| Services.RolloutStore.UpdateRollout | services/control-plane/internal/rollout/cockroach_store.go:131-150 | Writes stage and status, the present moment as stage entry, and as end iff the status is not running, iff the row is still running at the expected stage; otherwise a conflict and no change. |
| Services.RegistryStore.InsertManifest | services/control-plane/internal/registry/cockroach_store.go:25-31 | Inserts iff the id is new and well formed; never overwrites. |
| Services.RegistryStore.SetActive | services/control-plane/internal/registry/cockroach_store.go:35-42 | Moves one model's pointer iff the version exists. |
| Services.EtcdClient.PublishManifest | services/control-plane/internal/etcdclient/etcdclient.go:65-84 | Writes exactly one manifest key. |
| Services.EtcdClient.PublishActive | services/control-plane/internal/etcdclient/etcdclient.go:114-116 | Replaces one model's envelope by one with no canary. |
| Services.EtcdClient.PublishCanaryState | services/control-plane/internal/etcdclient/etcdclient.go:129-135 | Replaces one model's envelope by the given three fields. |
| Services.RegistryService.GetModelManifest | services/control-plane/internal/registry/registry.go:215-240 | Computes `Protocol.Lookup` and changes nothing. |
| Services.RegistryService.ActivateVersion | services/control-plane/internal/registry/registry.go:196-204 | Pointer first, envelope second; a version that does not exist changes neither. |
| Services.RegistryService.RegisterModelManifest | services/control-plane/internal/registry/registry.go:135-184 | State and answer are those of the protocol's registration run to its end. |
| Services.RolloutService.AdvanceStage | services/control-plane/internal/rollout/rollout.go:385-448 | State and answer are those of the protocol's advance, every refusal included. |
| Services.RolloutService.RevertCanary | services/control-plane/internal/rollout/rollout.go:456-482 | State and answer are those of the protocol's revert, every refusal included. |
| Services.RolloutService.CreateRollout | services/control-plane/internal/rollout/rollout.go:209-257 | State and answer are those of the protocol's creation, and an accepted one returns the drawn id. |
| Services.RolloutService.PromoteRollout | services/control-plane/internal/rollout/rollout.go:264-266 | An advance from whatever stage is recorded. |
| Services.RolloutService.AbortRollout | services/control-plane/internal/rollout/rollout.go:271-273 | A revert recorded as aborted. |
| Services.RolloutService.AutoAdvanceRollout | services/control-plane/internal/rollout/rollout.go:275-285 | An advance only from the stage the verdict was about. |
| Services.RolloutService.AutoRollbackRollout | services/control-plane/internal/rollout/rollout.go:287-296 | A revert recorded as rolled back, only at the stage the verdict was about. |
| Services.InsertThenAdvance | services/control-plane/internal/rollout/rollout.go:236-257 | A creation that passes its checks is an insert at `pending` followed by an advance, which cannot fail. |
| Reconciler.Find | services/control-plane/internal/analysis/k8s_client.go:42-59 | The first analysis carrying both labels, or none if there is none. |
| Reconciler.AnalysisClient.FindForStage | services/control-plane/internal/analysis/k8s_client.go:42-59 | Finds what `Reconciler.Find` names and changes nothing. |
| Reconciler.AnalysisClient.CreateForStage | services/control-plane/internal/analysis/k8s_client.go:61-119 | Adds one unreported analysis labelled with rollout and stage. |
| Reconciler.Reconciler.ReconcileOne | services/control-plane/internal/analysis/reconciler.go:111-215 | Stores and analyses afterwards are those of one reconcile of the listed row, which Reconciler.VerdictActs spells out phase by phase. |
| Reconciler.Reconciler.ReconcileAll | services/control-plane/internal/analysis/reconciler.go:97-106 | One tick reconciles every running rollout once, against rows listed at its start. |
| Reconciler.AutomaticMoves | services/control-plane/internal/rollout/rollout.go:275-296 | In agreement an automatic advance or rollback of a running rollout goes through and touches no other row. |
| Reconciler.VerdictActs | services/control-plane/internal/analysis/reconciler.go:111-215 | A reconcile of a running rollout: without an analysis, nothing for thirty seconds and then exactly one; a successful one moves it to the next stage; a failed, errored or inconclusive one rolls it back where it stands; an undecided one changes nothing. |
| Reconciler.NoStageLeftUnanalysed | services/control-plane/internal/analysis/reconciler.go:97-215 | In every run driven by the reconciler alone: at most one analysis per rollout and stage, none before the grace period is over, no stage left without a successful one, no rollback without a rejecting one. |
| Reconciler.TickProgress | services/control-plane/internal/analysis/reconciler.go:111-215 | A reconcile changes nothing iff the rollout is over, its analysis is missing inside the grace period, or it is undecided; otherwise a measure of what is left drops. |
| Reconciler.MoveProgress | services/control-plane/internal/analysis/reconciler.go:97-215 | Whatever else the cluster does (other rollouts, registrations, creations, verdicts, time) leaves a rollout's row, its analysis and its verdict alone. |
| Reconciler.BoundedReconciles | services/control-plane/internal/analysis/reconciler.go:97-215 | In every run of a single reconciler at most seven reconciles of a rollout have an effect, and a run with as many as its measure ends it. |
| Reconciler.EveryRolloutEnds | services/control-plane/internal/analysis/reconciler.go:97-215 | In every endless run of a single reconciler, with anything else in between, a rollout that keeps being reconciled while time passes and analyses are decided ends promoted or rolled back. |
| Reconciler.ListedRowsAreCurrent | services/control-plane/internal/analysis/reconciler.go:97-106 | Acting on the rows listed at the start of a tick is the same as acting on current rows. |
| Keys.SplitAtSlash | services/data-plane/model_registry/__init__.py:306-327 | Splits at the first slash, and fails exactly when there is none. |
| Keys.SplitIsFirst | services/edge-gateway/src/model_registry.rs:257-269 | A text split at its slash gives back its two parts iff the first has no slash. |
| Keys.ManifestKeyRoundTrip | services/control-plane/internal/etcdclient/etcdclient.go:65-84 | A published manifest key is parsed to its own parts iff both are non-empty and the model has no slash. |
| Keys.ActiveKeyRoundTrip | services/control-plane/internal/etcdclient/etcdclient.go:137-148 | A published active key is parsed to its own model iff the model is non-empty. |
| Keys.ManifestKeysDistinct | services/control-plane/internal/etcdclient/etcdclient.go:65-84 | Two different publications of slash-free models never share a key. |
| Caches.DataPlaneCache.HandleManifestKv | services/data-plane/model_registry/__init__.py:247-301 | A verified manifest is cached and trusted again; a failed one marks the id and keeps the last good one; a malformed one changes nothing. |
| Caches.DataPlaneCache.HandlePut | services/data-plane/model_registry/__init__.py:377-419 | A delivered put has exactly the effect of one replay step. |
| Caches.DataPlaneCache.HandleDelete | services/data-plane/model_registry/__init__.py:421-434 | A delivered delete has exactly the effect of one replay step. |
| Caches.DataPlaneCache.SyncOnce | services/data-plane/model_registry/__init__.py:306-327 | A re-list restarts the untrusted set, replays what it lists, and drops nothing that is cached. |
| Caches.EdgeCache.DispatchKv | services/edge-gateway/src/model_registry.rs:207-269 | A delivered put has exactly the effect of one replay step. |
| Caches.EdgeCache.HandleDelete | services/edge-gateway/src/model_registry.rs:246-255 | A delivered delete has exactly the effect of one replay step. |
| Caches.EdgeCache.SyncOnce | services/edge-gateway/src/model_registry.rs:273-279 | A re-list replays what it lists. |
| Caches.CachedIffVerified | services/data-plane/model_registry/__init__.py:247-327 | After any history a manifest is cached for an id iff some delivery of it verified and was not deleted since. |
| Caches.CachedIsLastVerified | services/data-plane/model_registry/__init__.py:247-301 | The cached manifest is that of the last verified delivery; failures neither replace nor remove it. |
| Caches.UntrustedIffLastFailed | services/data-plane/model_registry/__init__.py:247-332 | An id degrades the cache iff its last well-formed delivery since its last delete or re-list start failed. |
| Caches.PointerIsLastDelivered | services/data-plane/model_registry/__init__.py:303-304 | A model's pointer is the last delivered value that was not deleted since. |
| Caches.PointerIffDelivered | services/data-plane/model_registry/__init__.py:421-434 | A model has a pointer iff some delivery of it survives. |
| Caches.ServedAsSignedIff | services/data-plane/model_registry/__init__.py:247-301 | Every cached manifest is signed for the model and version it is served as iff every last verified document agrees with its key. |
| Caches.CleanRelistHeals | services/data-plane/model_registry/__init__.py:306-332 | A re-list in which every well-formed manifest verifies leaves nothing degraded, whatever came before. |
| Caches.ManifestReadAlikeIff | services/edge-gateway/src/model_registry.rs:207-236 | The two caches read a manifest document alike iff version, model, spec and signature are all present. |
| Caches.ActiveReadAlikeIff | services/edge-gateway/src/model_registry.rs:96-105 | They read an active document alike iff its stable version is present and its percentage fits 32 bits. |
| Caches.CachesAgree | services/edge-gateway/src/model_registry.rs:207-269 | Fed the same complete deliveries and verifier answers, both caches hold the same manifests and pointers. |
| Caches.ListedIffServable | services/edge-gateway/src/model_registry.rs:333-345 | The edge lists a model at a version iff data-plane has it as the model's stable version and holds its manifest. |
| Caches.EdgeCachedIff | services/edge-gateway/src/model_registry.rs:207-255 | After any history the edge caches a manifest iff some complete delivery of it verified and was not deleted since, with exactly the fields of the last such. |
| Caches.EdgePointerIsLast | services/edge-gateway/src/model_registry.rs:96-105 | The edge's stable version of a model is that of the last surviving delivery: its stable field if it is a proper envelope, the bare text otherwise. |
| Routing.ExactShare | services/data-plane/model_registry/__init__.py:160-183 | A canary at p percent is picked for exactly p of the hundred residues. |
| Routing.CacheRoutesByEnvelope | services/data-plane/model_registry/__init__.py:436-475 | A cache that saw the live envelope last serves only the picked version's verified manifest, and refuses rather than falling back from an unverified canary to the stable version. |
| Routing.ResolvesLastGood | services/data-plane/model_registry/__init__.py:436-475 | Over any history of deliveries: a request is answered with a worker iff the last verified, not since deleted document of the version it goes to names that worker, whatever failed since; it goes to the canary iff there is one and its bucket is below the percentage; everything else is refused. |
| Routing.UnknownModelRefused | services/data-plane/model_registry/__init__.py:453-457 | A model with no surviving pointer is refused. |
| Routing.CohortsNested | services/data-plane/model_registry/__init__.py:160-183 | Between any two moments of a running rollout, completed calls of any kind only add requests to the canary cohort, and each request sees one of the two versions. |
| Routing.EndMovesEveryone | services/control-plane/internal/rollout/rollout.go:411-477 | The call that ends a rollout routes every request to the new version, or back to the old one. |
| Delivery.CacheMirrors | services/data-plane/model_registry/__init__.py:247-327 | Under every interleaving of calls, a cache fed exactly what they wrote to etcd has every envelope as its pointer and every published manifest with its worker, and distrusts nothing. |
| Delivery.ResolvesAsAssigned | services/data-plane/model_registry/__init__.py:436-475 | That cache resolves each request to the worker of the routed version's published manifest, or refuses iff there is none. |
| Delivery.ResolvedCohortsNested | services/data-plane/model_registry/__init__.py:160-183 | Through calls, etcd and cache: a request resolved to the canary of a running rollout is not resolved to its stable version later while it runs, and is always given the published worker of one of the two. |
| Breaker.CircuitBreaker.Check | services/provider-gateway/internal/breaker/breaker.go:99-119 | Answer and stored record are those of the check the lemmas below are about. |
| Breaker.CircuitBreaker.ReportResult | services/provider-gateway/internal/breaker/breaker.go:126-149 | The stored record is that of the report the lemmas below are about. |
| Breaker.RecordSummarisesReports | services/provider-gateway/internal/breaker/breaker.go:75-149 | For any mix of checks and reports at any times, the record is closed or absent iff the trailing failures are below the threshold, and then counts them. |
| Breaker.AllowedIffFewFailures | services/provider-gateway/internal/breaker/breaker.go:99-119 | A check answers allow iff the trailing failures are below the threshold. |
| Breaker.TrialsSpaced | services/provider-gateway/internal/breaker/breaker.go:99-149 | Between two trials somebody reported, and at least the open period went by. |
| Breaker.OpenPeriod | services/provider-gateway/internal/breaker/breaker.go:75-119 | After a tripping failure and until the next report, checks inside the open period are denied, and of the later ones only the first is let through, as the trial. |
| Breaker.ApartIsAtomic | services/provider-gateway/internal/breaker/breaker.go:99-149 | With reads and writes as separate steps, any run in which no record changes under a call has the record and answers of the same calls in one step each. |
| Breaker.OverlappingTrialsIff | services/provider-gateway/internal/breaker/breaker.go:99-119 | Of two checks that both read before either writes, both are given a trial iff the open period was over for both; one after the other the second is refused. |
| Admission.EdgeAdmit | services/edge-gateway/src/admission/mod.rs:96-128 | Admits iff the gauge was below the larger limit; the gauge grows by one for an admitted request and is unchanged for a shed one. |
| Admission.DataPlaneAdmit | services/data-plane/scheduler/admit/__init__.py:49-63 | Admits iff the gauge after the increment is below the limit; a shed request leaves it unchanged. |
| Admission.AlwaysOrdered | services/edge-gateway/src/admission/mod.rs:72-128 | In every interleaving the gauge equals the requests not yet taken back and the i-th oldest of them observed at least i. |
| Admission.NeverOverCapacity | services/edge-gateway/src/admission/mod.rs:72-128 | In every interleaving no more than the larger limit (edge) or limit - 1 (data-plane) hold a slot, and the gauge is zero when nobody is left. |
| Admission.CapacityIsReached | services/data-plane/scheduler/admit/__init__.py:35-67 | That bound is attained, and the next request is refused. |
| Broadcast.Buffer.Publish | services/provider-gateway/internal/coalesce/broadcast.go:39-44 | Appends one delta. |
| Broadcast.Buffer.Finish | services/provider-gateway/internal/coalesce/broadcast.go:46-52 | Fixes the ending and keeps what was published. |
| Broadcast.Subscriber.Recv | services/provider-gateway/internal/coalesce/broadcast.go:62-77 | Returns the next delta and moves on, or the call's ending once nothing is left. |
| Broadcast.ReportingStream.Observe | services/provider-gateway/main.go:203-223 | Reports the first decisive read and nothing after it. |
| Broadcast.EverySubscriberSeesTheCall | services/provider-gateway/internal/coalesce/broadcast.go:39-77 | In every interleaving each subscriber, whenever it joined, has received a prefix of the call's deltas, and at its end all of them and the call's own ending. |
| Broadcast.OneTrueReport | services/provider-gateway/main.go:203-223 | In every interleaving the outcome is reported at most once, before any subscriber sees the end, and is success iff a final delta came before any error or end. |
| Broadcast.SuccessMeansFinal | services/provider-gateway/internal/coalesce/coalesce.go:67-95 | The call succeeds iff it ends cleanly with a final delta as its last. |
| RateLimit.RedisCounter.Increment | services/edge-gateway/src/ratelimit/store.rs:31-62 | A live counter grows by one and keeps its lifetime, otherwise it starts at one with sixty seconds; no other key changes. |
| RateLimit.Enforce | services/edge-gateway/src/ratelimit/mod.rs:77-96 | Allows iff the organisation's current window had fewer than its limit; other organisations are untouched. |
| RateLimit.TimelyPunctual | services/edge-gateway/src/ratelimit/store.rs:31-62 | In every interleaving of single commands that land in their own window no counter restarts and every request is allowed inside its own window. |
| RateLimit.AtMostRpm | services/edge-gateway/src/ratelimit/mod.rs:65-96 | Under the same condition an organisation is allowed exactly the first requests up to its limit in each window, and at most twice the limit in any sixty seconds, whatever others do. |
| RateLimit.TwiceRpmReached | services/edge-gateway/src/ratelimit/mod.rs:65-96 | Twice the limit is attained for every limit, within two milliseconds and with every command in its own window. |
| RateLimit.LateIncrementRestarts | services/edge-gateway/src/ratelimit/store.rs:31-62 | For every limit, a second command a minute late makes a window allow one request too many. |
| RateLimit.OverrunIff | services/edge-gateway/src/ratelimit/store.rs:31-62 | In every run, however late: a window allows the first requests up to the limit of each life of its counter; it exceeds the limit iff its counter restarted and more requests than the limit were counted; without a restart it allows exactly the first ones. |
| RateLimit.RestartsIff | services/edge-gateway/src/ratelimit/store.rs:31-62 | A command restarts a window's counter iff it finds it expired. |
| RateLimit.SixtySeconds | services/edge-gateway/src/ratelimit/mod.rs:65-96 | At most twice the limit in any sixty seconds if neither window restarted and no allowed request was late. |
| Streaming.Submit | services/data-plane/main.py:257-494 | Produces, for every plan, reply sequence and consumer, the effects the lemmas below are about. The log row has the status of how the request ended, ok iff the replies end cleanly or on a final delta; a usage row bills the dispatched worker, with a final delta's own counts or both absent; working memory is written first iff the request got past classification and deleted iff the row says ok; each message carries its delta's fields. |
| Streaming.DeliversPrefix | services/data-plane/main.py:433-494 | Wherever the consumer stops it has the first deltas, one for one and in order, through the first final one; a patient one has them all. |
| Streaming.FinalChunkAlreadyMetered | services/data-plane/main.py:433-494 | A delivered final chunk is preceded by the ok row and by a usage row with exactly that chunk's token fields, absent ones left absent, and followed only by the release. |
| Streaming.ReleasedExactlyOnce | services/data-plane/main.py:307-494 | An admitted request releases the gauge exactly once, as its last effect; others never do. |
| Streaming.LoggedOnce | services/data-plane/main.py:190-253 | One log row for an identified request whose stream closed or was refused, none otherwise, never two. |
| Streaming.MeteredOnce | services/data-plane/main.py:190-253 | One usage row iff a provider answered the request through to a close and did not decline it. |
| Streaming.Relay | services/edge-gateway/src/stream.rs:50-165 | One chunk for each item read, with its content and finish reason or the error reason; no reading past a final message or an error; metered once iff the client reads past the last chunk, with the last reason given or "unknown"; the guard is dropped exactly once, last. |
| Streaming.SubmitAndRelay | services/edge-gateway/src/ingress.rs:148-184 | A call refused outright is metered as an error, gives its guard back and gets an error response, and nothing else; any other is relayed. |
| Streaming.RelayedOneForOne | services/edge-gateway/src/stream.rs:50-99 | Messages of which only the last may be final, and an error that follows them, are converted one for one. |
| Streaming.AbortsIff | services/data-plane/main.py:433-494 | The handler aborts iff it refuses the request, or its stream closes on a refusal or an error before the consumer leaves. |
| Streaming.EdgeReadsHandled | services/data-plane/main.py:433-494 | The edge reads exactly the sent messages in order, then one error iff the handler aborted. |
| Streaming.ClientSees | services/edge-gateway/src/ingress.rs:148-184 | Through both hops, wherever edge and client stop: the client gets a prefix of the provider's deltas through the first final one, then one error chunk iff the handler aborted and the client reads that far; an abort reported by the call itself gives an error response and no chunk. |

## Left out

- Transport: Vault, Kubernetes, SQL text, gRPC, Redis and etcd clients are atomic updates of maps. A signature is `Sealed(text)`, which only signing produces; the caches' verifier is an arbitrary answer per delivery.
- Failing store and etcd calls: a call whose access fails is one that stops there, so every crash point is covered but not the error text. The limiter, gauge and breaker fail open on store errors; their bounds are about runs without such errors, and a gauge the edge cannot read as an unsigned number is such an error.
- JSON text: documents are either absent, malformed, bare text or a record of fields; numbers and strings of the wrong type are not modelled.
- Columns that decide nothing (`strategy_json`, `created_by`, `created_at`, `updated_at`), UUID syntax beyond the empty string, and the read-only `GetRolloutStatus`, `ListRollouts` and `ListModels`.
- An automatic call with an empty stage, which the code treats as no precondition: the reconciler always passes a stage, and the model's type has no empty one.
- The in-memory store used by the Go unit tests: it accepts an update of a missing id where SQL reports a conflict; the model follows SQL.
- Protocol.Lookup: a manifest read with an explicit version does not compare the model, as in the code, so no property claims that a rollout's version belongs to its model.
- Safety.PublishMatchesRow: requires that nothing comes between publish and update, and so does Safety.EndingMatchesRow; Overtaking.EndSticksIff has no such condition but speaks of rollouts that are over.
- Agreement.StepCrashOk: leaves rows at `pending` out like CrashedCallsStayClose.
- Agreement.CrashedCallsStayClose: says nothing about the envelope of rows still at `pending`; Closeness.PendingCloseIff says exactly when those are close.
- Caches.CachesAgree: requires complete documents, as the publisher writes them: all four signed fields of a manifest, and the stable version and a 32-bit percentage of an active pointer; Caches.ManifestReadAlikeIff and Caches.ActiveReadAlikeIff show that each is needed.
- Delivery.CacheMirrors: requires model names that are non-empty and free of slashes, as the key layout does, deliveries in the order of the writes, and a verifier that accepts what the signing key signed.
- Streaming.ClientSees: whether an abort before any message is reported by the call or by its stream is the transport's choice, a parameter here.
- RateLimit.AtMostRpm: requires that each command lands in the window its key names; RateLimit.OverrunIff says what a window allows without that condition, and RateLimit.LateIncrementRestarts shows that it matters.
- Breaker.TrialsSpaced: requires a clock that does not run backwards, and checks and reports in one step each; Breaker.ApartIsAtomic says which other runs are the same and Breaker.OverlappingTrialsIff what overlap changes.
- Breaker.OpenPeriod: requires such a clock as well; Breaker.RecordSummarisesReports and Breaker.AllowedIffFewFailures hold for any times.
- Leader election between control-plane replicas: any number of reconcilers may run at once in Interleaving, one in Reconciler.
- The caches' watch and re-sync loops, their back-off, and their interleaving at await points: each put, delete and re-list is one step.
- The hash that maps a request id to one of the hundred residues: routing is stated for every residue.
- Coalescing of equal calls into one leader, the subscribers' condition wait (a read is offered only when it can return), quotas, and the provider's own relay, whose synthetic final delta makes a failed provider stream look like a clean end to the handler.
- Uncaught exceptions and cancellations in the handler, which write no log row; a handler whose consumer reads nothing has no effects. Outcome counters, spans and log lines.
- Authentication, API keys, pricing, policies, classification, templates, the admin panel and metrics: per-call facts.
