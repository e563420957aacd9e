# A model of the Manila operator's credential rotation

The Manila operator moves a running service from one RabbitMQ credential to the next
without ever revoking a credential that a pod still uses. Four kinds of controllers share
one store and no lock: the Manila parent, and one controller each for the API, the
Scheduler and every Share. The parent pins a new transport secret with a consumer
finalizer, renders the configuration from it, stops until the new input hash is recorded,
pushes the secret's name into the service objects, waits until every one of them reports
the matching `AppliedInputSecretHash`, and only then releases the old secret and prunes
strays. Deletion, switching notifications off, share cleanup, errors and crashes interleave
with all of that.

The project models this protocol and proves what it is for, and, beside it, the healthcheck
sidecar, the route-timeout annotation, the share labels and the input hash.

## How the model is organised

| file | what it holds |
|---|---|
| `RotationState.dfy` | the store: secrets and finalizers, the TransportURLs, every revision of every service object, StatefulSets, pods, the parent's in-memory instance |
| `RotationSteps.dfy` | the protocol as labelled atomic steps, one for each API call; a run is any interleaving of environment, parent, service and pod steps |
| `RotationSafety.dfy` | the invariant of every reachable state |
| `RotationExposure.dfy` | the pod-level safety theorems: exactly which pods read a pinned messaging or notifications secret, in every run |
| `RotationLedger.dfy`, `RotationHistory.dfy` | who holds which finalizer; theorems over whole runs |
| `RotationEffects.dfy` | what an undisturbed parent reconcile does, and that it is a path of steps |
| `ReconcileOutcome.dfy` | where an undisturbed parent reconcile ends, field by field, stated without the steps |
| `RotationActors.dfy`, `RotationFixpoint.dfy`, `Convergence.dfy`, `RotationRuns.dfy` | undisturbed service reconciles and rollouts, when a parent reconcile changes nothing, the termination measure, convergence by rounds of whole reconciles from every reachable state |
| `RotationFairness.dfy`, `FairBehaviour.dfy` | convergence of every fair infinite behaviour of interleaved atomic steps; such behaviours exist |
| `RotationReissue.dfy` | the same when the notifications secret is still to come, or is taken once more |
| `RotationLimits.dfy`, `NotificationsLimits.dfy` | families of inputs, and runs, on which the code strands a pod on a released secret or leaves a TransportURL behind |
| `StaleReads.dfy` | why three reads have to be current |
| `NotificationsTeardown.dfy` | switching notifications off |
| `ManilaController.dfy`, `ServiceController.dfy` | the reconcilers as imperative classes over the store; between any two of their calls the others act, calls fail, processes die, cached reads are old; proved to be paths of the step system |
| `ShareStatus.dfy`, `ShareCleanup.dfy`, `InputHash.dfy` | the share loop's accumulators; share labels and cleanup, which say when the rotation model may name share objects by their spec key; how secrets become the input hash |
| `Healthcheck.dfy`, `RouteTimeout.dfy` | the sidecar's parser and verdict; the route annotation under operator calls and human edits |

The step system is the reference: it has stale reads, concurrent steps and aborts; a pod may
start at any time on the StatefulSet's template, and restart at any time on the template it
has, reading whatever configuration is in the store then. Each
reconciler class does one reconcile against the store; its contract says that whatever the
API server answers, and whatever everybody else does between its calls, the effect is a
path of steps (so every theorem about runs applies to it), without a crash in it unless its
last call, the deferred status patch, fails; and that undisturbed the effect is the function on
whole states with which convergence is proved, and leaves in each field what is stated there
apart from that function. Undisturbed means: every call succeeds, nobody else acts before one,
and no cached read is old (`Undisturbed`); with such inputs the flag `disturbed` stays false.

Library calls appear by contract. `ManageSecretConsumerFinalizer` and
`RemoveSecretConsumerFinalizer` are idempotent, `FinalizeSecretRotation` releases the old
name only under the guard, `PruneSecretConsumerFinalizers` strips every secret outside its
keep list, `IsReadyForInput` is true only when every pod runs the template with that hash,
hashes are injective (a hash is represented by what was hashed), `CreateOrUpdate` raises the
generation exactly when the spec changed and may hand back an arbitrarily old cached
revision when that revision already has the desired spec, and `PatchInstance` writes status
only.

Hypotheses about the environment:

- every issued name is fresh, so messaging and notifications names are disjoint;
- a secret that carries a finalizer is not deleted, and a secret's content does not change
  under its name;
- one Manila in the namespace; the parent reads its own object and the TransportURLs
  currently (its reads of service objects may be as old as they like);
- services read the parent's configuration Secret currently (their own object they may read
  from any revision of the present object that a cache may hold, unless that revision says
  that it is being deleted).

The currency of these three reads is needed: `StaleUrlStranded` and `StaleConfigStranded` end
with a pod on a released secret, `StaleObjectPins` with a secret pinned after the Manila's own
finalizer has gone.

Secrets may be issued at any time and the spec may be edited in any way at any time; what that
costs is stated exactly. `PodPinnedIff`: a pod reads an unpinned messaging secret if and only
if, while its service's object lived, a reconcile took the finalizer off that secret whose spec
lacked the service, or that pruned it as neither tracked nor pushed. Both happen, from every
converged state: `ReaddedPodStranded` takes a share out, rotates, and puts it back before its
old object is gone; `MiddleSecretStranded` rotates twice, the second time before the first
secret is tracked. If every secret is issued only once its predecessor is tracked, no prune
takes a messaging secret (`TimelyPrunesNothing`).

For notifications `NotifPinnedIff` is as exact, and the code gives less. A secret that was
never tracked is pruned under pods that read it (`UntrackedSecretStranded`). One that was
tracked is released under them all the same (`TrackedSecretStranded`): AppliedInputSecretHash is
compared with the names pushed, and a service that had applied "no notifications" before they
were switched on says so again after they are switched off, as soon as it has looked at its new
spec, though its pods still read the secret.

## Where code and comments differ

- The comment at `internal/controller/manila_controller.go:702-704` says that the
  notifications status is set early for first-time setup. Line 669 has made it the empty
  string by then, so the branch is dead and tracking starts at line 1117. Hence the deferral
  that lines 715-721 describe covers only a secret that was tracked before
  (`OnlyTrackedIsDeferred`), and a TransportURL whose secret never was tracked stays behind
  (`TeardownDeletesUrl`, `SomeUrlLeftBehind`). The model follows the code.
- The same comment promises that teardown waits until the services have rolled out without
  notifications. The guard may hold before that (`SomeTrackedSecretStranded`).
- The application-credential configuration is rendered (line 815) before its finalizer is
  added (line 856), and the guard's hash (line 891) does not cover it. No claim about pods is
  made for it.

## Model

| member | source | states |
|---|---|---|
| RotationExposure.PodPinnedIff | internal/controller/manila_controller.go:642-654 | In every state of every run in which the Manila is not being deleted, whenever secrets were issued, for every pod of every service, in the spec or not: the messaging secret it has read carries the transport finalizer if and only if no step, since which the service's object has lived, has taken that finalizer off on behalf of a spec without the service or by pruning it |
| RotationExposure.TimelyPinnedIff | internal/controller/manila_controller.go:642-654 | If every secret was issued once its predecessor was tracked: if and only if no reconcile whose spec lacked the service has done so |
| RotationExposure.TimelyPrunesNothing | internal/controller/manila_controller.go:1147-1167 | Then no prune takes the finalizer off a messaging secret |
| RotationExposure.PodKeepsIff | internal/controller/manila_controller.go:642-723 | For messaging and notifications alike: a pod's secret is pinned if and only if no step has taken its finalizer off while the service used it, without its being pinned again |
| RotationExposure.NotifPinnedIff | internal/controller/manila_controller.go:1102-1167 | A pod's notifications secret is unpinned if and only if, while its service used it, a prune that found it neither tracked nor pushed let it go, or the release of the tracked one under the guard, and nothing has pinned it since |
| RotationExposure.PodCredentialsPinned | internal/controller/manila_controller.go:642-654 | So, with secrets issued in time, a pod of a service that every reconcile since its object was created has read from the spec reads a pinned secret |
| RotationExposure.StepCovered | internal/controller/manila_controller.go:586-1174 | The invariant behind them: each step lets go exactly what it strips from a service in use, everything else stays on pinned names |
| RotationExposure.RunCovered | internal/controller/manila_controller.go:128-240 | It holds in every state of every run without deletion |
| RotationLimits.ReaddedPodStranded | internal/controller/manila_controller.go:1712-1729 | From every converged state: a service with a pod taken out of the spec, a rotation, as many rounds as it needs, and the service put back leave that pod on a secret that nobody holds |
| RotationLimits.SomeReaddedPodStranded | internal/controller/manila_controller.go:1712-1729 | Some run from an empty namespace ends that way |
| RotationLimits.MiddleSecretStranded | internal/controller/manila_controller.go:1147-1167 | From every converged state: two rotations, the second before the first secret is tracked, end with the pods that moved to the middle secret on a secret without its finalizer |
| RotationLimits.SomeMiddleSecretStranded | internal/controller/manila_controller.go:1147-1167 | Some run from an empty namespace ends that way |
| NotificationsLimits.SomeUrlLeftBehind | internal/controller/manila_controller.go:1118-1133 | Some run ends converged and quiescent, with notifications off and their TransportURL still there |
| NotificationsLimits.UrlLeftBehind | internal/controller/manila_controller.go:1118-1133 | From every converged state without notifications: switched on, given a secret and switched off before a reconcile tracks it, they leave the TransportURL behind whatever rounds follow |
| NotificationsLimits.UntrackedSecretStranded | internal/controller/manila_controller.go:1153-1167 | From every such state in which a service wants pods: switched off after a push that died before it tracked the secret, the next push strips the secret that the service's pods read |
| NotificationsLimits.TrackedSecretStranded | internal/controller/manila_controller.go:1118-1133 | From every such state: switched off while a service rolls out, the tracked secret is released under the guard while that service's pods read it |
| NotificationsLimits.SomeUntrackedSecretStranded | internal/controller/manila_controller.go:1153-1167 | Some run from an empty namespace ends in the first way |
| NotificationsLimits.SomeTrackedSecretStranded | internal/controller/manila_controller.go:1118-1133 | Some run from an empty namespace ends in the second way |
| StaleReads.StaleConfigStranded | internal/controller/manilashare_controller.go:384-411 | A rotation in which the only service reads the configuration of before it ends with the guard true and the service's pods on the released secret |
| StaleReads.StaleUrlStranded | internal/controller/manila_controller.go:617-654 | Two reconciles on an older revision of the TransportURL, a rollout, and two on the current one strip the secret that the pods have moved to |
| StaleReads.StaleObjectPins | internal/controller/manila_controller.go:128-240 | A reconcile that begins from a revision with the Manila's finalizer after that has gone pins a secret |
| RotationSafety.StepInv | internal/controller/manila_controller.go:586-1174 | The invariant of the protocol (what the parent's reconcile has established, and that no service claims the name of the stored configuration falsely) survives every single step of parent, services, pods and environment, any edit of the spec, any issue of secrets, aborts and stale snapshots included |
| RotationSafety.RunInv | internal/controller/manila_controller.go:128-240 | It holds in every state of every run |
| RotationSafety.GuardMeansRolled | internal/controller/manila_controller.go:1088-1100 | When the guard holds at the release, nothing that a service which the reconcile read from the spec has rendered, or one of its pods has read, is from a messaging name other than the one pushed |
| RotationSafety.WriteIsNotReady | internal/controller/manila_controller.go:1382-1425 | A CreateOrUpdate that writes leaves the guard false; one that finds the spec in place writes nothing |
| RotationSafety.CheckedOk | internal/controller/manilashare_controller.go:618-630 | Recording an applied hash keeps it true: it is recorded only with every pod on the hash computed in that reconcile |
| RotationLedger.RunLedger | internal/controller/manila_controller.go:1088-1174 | In every state of every run: without the Manila's own finalizer no secret is held; a tracked name in memory differs from the persisted one only for a first name or after a release under the guard; what each stage of the tail has established about holders |
| RotationHistory.MessagingReleaseNeedsRollout | internal/controller/manila_controller.go:1088-1100 | Over any stretch of a run without deletion the tracked messaging secret stays pinned and tracked until a step releases it in a normal reconcile after every service matched generation, applied hash and replica count |
| RotationHistory.MessagingReleaseFindsOnlyCurrent | internal/controller/manila_controller.go:891-931 | At that release the stored configuration is from the name that the reconcile pushes, and so is every configuration and pod of the services that it read from the spec |
| RotationHistory.NoReleaseAfterWrite | internal/controller/manila_controller.go:897-1022 | After a reconcile has written any service object, until the next one starts, a pinned tracked secret keeps its finalizer and stays tracked |
| RotationHistory.NotificationsReleaseDeferred | internal/controller/manila_controller.go:715-723 | The tracked notifications secret stays pinned and tracked, through toggles, errors and crashes, until every service has applied names without it |
| RotationHistory.NotifUrlDeletedAfterRollout | internal/controller/manila_controller.go:1118-1133 | The notifications TransportURL is deleted only by a reconcile that pushed no notifications name and found every service on that |
| RotationHistory.CompletedReconcileHolders | internal/controller/manila_controller.go:1147-1174 | After any number of rotations a completed reconcile leaves the transport finalizer only on tracked and current names, on exactly the current ones when the guard held, and the AC finalizer only on the tracked and the requested secret, which has it |
| RotationHistory.ACMovesUnderGuard | internal/controller/manila_controller.go:1135-1145 | The tracked AC name moves off a non-empty secret only under the guard, and to the requested one |
| RotationHistory.FinalizerOutlivesPins | internal/controller/manila_controller.go:463-519 | While any secret, named in status or spec or in neither, holds a consumer finalizer, the Manila keeps its own |
| RotationHistory.FinalizerDroppedLast | internal/controller/manila_controller.go:504-516 | The step that drops it happens during deletion, with no holder of either finalizer left in the namespace |
| RotationHistory.AppliedHashIsHistory | internal/controller/manilashare_controller.go:573-644 | If any revision or running reconcile of a service claims a pair of names applied, then at some earlier step its reconcile, begun from a spec naming them, found every pod on the input hash it had just computed |
| RotationHistory.SpecWriteAhead | internal/controller/manila_controller.go:839-898 | A service spec is written only when its secrets are pinned, the stored configuration was rendered from them, and that input hash is persisted |
| RotationHistory.ConfigHashWriteAhead | internal/controller/manilaapi_controller.go:849-926 | A StatefulSet carries only a CONFIG_HASH that some persisted revision of the service's status had recorded |
| RotationEffects.ParentEffectLeads | internal/controller/manila_controller.go:586-1180 | The undisturbed reconcile, as a function on states, is a path of steps |
| RotationEffects.PrunedSecrets | internal/controller/manila_controller.go:1090-1174 | Release followed by prune leaves each finalizer exactly on the tracked and current names that had it |
| RotationEffects.LeadsExtendsRun | internal/controller/manila_controller.go:128-240 | What is reached by steps from a run's end is reached by a longer run |
| RotationActors.EffectLeads | internal/controller/manilashare_controller.go:360-644 | Undisturbed service reconciles (an object being deleted goes) and rollouts are paths of steps too and keep the invariant |
| RotationActors.ServiceEffectDescends | internal/controller/manilashare_controller.go:477-630 | A service reconcile changes nothing or strictly lowers the service's rank, and never touches spec or deletion mark |
| RotationActors.PodsEffectDescends | internal/controller/manilashare_controller.go:545-562 | So does a rollout |
| RotationActors.SettledService | internal/controller/manilashare_controller.go:573-630 | A service that neither its controller nor its pods will change matches its spec's names, with every pod on the template of the wanted configuration |
| RotationActors.ParentPushes | internal/controller/manila_controller.go:897-996 | Past the gate a parent reconcile leaves every service of the spec with the desired spec, and those that had it untouched |
| RotationFixpoint.ParentStaysIffSettled | internal/controller/manila_controller.go:1090-1174 | A parent reconcile changes nothing if and only if hash and configuration are the wanted ones, every spec is pushed, no stray share is left, the status is as settled as the guard allows, and the finalizers are exactly where they belong |
| RotationFixpoint.SecondPassChangesNothing | internal/controller/manila_controller.go:1090-1174 | After a reconcile that had nothing to push, a second one changes nothing |
| RotationFixpoint.UnreadyPassKeeps | internal/controller/manila_controller.go:1147-1167 | While services roll out, a full reconcile keeps the finalizer of a pinned secret if and only if it is tracked or current: the middle secret of overlapping rotations loses it |
| Convergence.EffectDescends | internal/controller/manila_controller.go:830-1174 | Whatever one actor does undisturbed changes nothing or strictly lowers one measure over gate, services and finalize stage, wanted services whose objects are still being deleted included, and keeps the inputs |
| Convergence.QuiescentIffZero | internal/controller/manila_controller.go:830-1174 | The measure is zero if and only if no actor would change anything |
| Convergence.QuiescentConverged | internal/controller/manila_controller.go:1090-1174 | Then tracked equals current for all three names, every service runs them, and each finalizer is on exactly those names |
| Convergence.RoundsConverge | internal/controller/manila_controller.go:586-1180 | As many rounds as the measure says, each with every actor's whole reconcile in any order, end converged and quiescent: a bound on the work |
| RotationFairness.FairBehavioursConverge | internal/controller/manila_controller.go:586-1180 | Every infinite interleaving of atomic steps, with parent, services and pods in flight at once, failing and crashing, in which the environment rests, reads are current, no late teardown happens, and each controller comes to an end of a reconcile again and again, is converged from some point on, for ever |
| RotationFairness.FairRunsConverge | internal/controller/manila_controller.go:128-240 | So from the end of every run with its inputs there, whatever is in flight |
| RotationFairness.InputsStayIff | internal/controller/manila_controller.go:1118-1133 | With current reads and the environment at rest, a step leaves the inputs as they are and ready if and only if it is not a late teardown, in which a reconcile that read the spec with notifications off takes the TransportURL of notifications switched on meanwhile |
| FairBehaviour.SomeFairBehaviour | internal/controller/manila_controller.go:128-240 | Such behaviours exist: a run goes on as one for ever |
| RotationReissue.FairGoingsConverge | internal/controller/manila_controller.go:667-723 | Late teardowns allowed and the notifications secret still to come: if the environment gives every waiting TransportURL a secret, every fair behaviour has its inputs ready and is converged from some point on |
| RotationReissue.FairRunsConvergeAnyway | internal/controller/manila_controller.go:128-240 | So from the end of every run whose other inputs are there |
| RotationRuns.RunsConverge | internal/controller/manila_controller.go:128-240 | From the end of every run, once the inputs are there, also when wanted services are still being deleted: after everything in flight crashed, as many rounds as the measure says extend the run to a converged state that nothing changes |
| RotationRuns.RotationCompletes | internal/controller/manila_controller.go:1088-1100 | From a converged state a newly issued messaging secret becomes, after such rounds, the tracked and pinned one in every pod of the spec, and the previous one is free |
| RotationRuns.SomeRunConverges | internal/controller/manila_controller.go:128-240 | Some run from an empty namespace ends converged with the pod of a share in service |
| NotificationsTeardown.TeardownDeletesUrl | internal/controller/manila_controller.go:1118-1133 | A due teardown releases every notifications secret; the TransportURL goes if and only if a secret had been tracked |
| NotificationsTeardown.TeardownRetried | internal/controller/manila_controller.go:1123-1132 | Given up between release and deletion of the TransportURL, by error or crash, the teardown is finished by the next reconcile in the same state as an undisturbed one |
| NotificationsTeardown.OnlyTrackedIsDeferred | internal/controller/manila_controller.go:1153-1167 | With notifications off and services still rolling out, a pinned notifications secret is kept if and only if it is the tracked one |
| ManilaController.ManilaReconciler.Reconcile | internal/controller/manila_controller.go:128-240 | On any outcomes of its calls, any steps of services, pods and environment before each of them, and any cached revisions: a path of the step system that keeps invariant and ledger, with no crash in it if its last call, the deferred status patch, succeeded. With all calls succeeding, nobody else acting and no old cached read, the whole end state, field by field, for every input: the stop for each missing input (`ReconcileOutcome.Ends`), the stop at a new hash, the whole pass, the finalizer added, the Manila deleted with no finalizer on any secret |
| ManilaController.ManilaReconciler.ReconcileNormal | internal/controller/manila_controller.go:586-1180 | The same for the normal branch |
| ManilaController.ManilaReconciler.ReconcileDelete | internal/controller/manila_controller.go:447-520 | Releases the listed names, then every holder, then drops the Manila's own finalizer: whatever happens between its calls a path of the step system; with nothing disturbing it every secret is there without any finalizer of ours, the Manila's own is gone, and nothing else changes |
| ManilaController.ManilaReconciler.ReadMessaging | internal/controller/manila_controller.go:617-654 | Tracks a first name and pins the current one, or stops; undisturbed it stops only for a missing name or secret, and then the status is saved with the first name tracked and nothing else changes |
| ManilaController.ManilaReconciler.ReadNotifications | internal/controller/manila_controller.go:667-723 | The same for notifications; undisturbed a stop leaves the TransportURL there, created if it was missing, and the early empty status saved, and nothing else changes |
| ManilaController.ManilaReconciler.RenderAndGate | internal/controller/manila_controller.go:811-849 | Renders from the names just read; ends the reconcile exactly when the recorded hash differs, having recorded the new one; undisturbed it stops before that only for a missing secret, the status saved and the stored configuration as it was |
| ManilaController.ManilaReconciler.RollOut | internal/controller/manila_controller.go:852-1058 | From the AC pin to the end of the share cleanup; undisturbed it stops only for a requested AC secret that is not there, with the status saved and nothing else changed |
| ManilaController.ManilaReconciler.ReleaseListed | internal/controller/manila_controller.go:447-500 | Undisturbed exactly the tracked and current messaging, notifications and AC names lose their finalizer |
| ManilaController.ManilaReconciler.DeployServices | internal/controller/manila_controller.go:893-1022 | Comes past the service stage only after a CreateOrUpdate of every service of the spec; undisturbed every one is pushed and the guard is the conjunction of all their readiness tests |
| ManilaController.ManilaReconciler.CreateOrUpdate | internal/controller/manila_controller.go:1382-1425 | Hands back a cached revision that has the spec, however old, writing nothing; else updates the live object with a new generation, or creates one |
| ManilaController.ManilaReconciler.ShareCleanup | internal/controller/manila_controller.go:1695-1736 | Undisturbed it marks exactly the live shares outside the spec for deletion; a refused List never ends the reconcile and deletes nothing |
| ManilaController.ManilaReconciler.FinalizeNotifications | internal/controller/manila_controller.go:1102-1133 | Rotates, tears down, or leaves notifications, by name and guard |
| ManilaController.ManilaReconciler.PruneSecretConsumerFinalizers | internal/controller/manila_controller.go:1161-1174 | Whatever happens between its calls, it succeeds only with no holder of the finalizer left outside the keep list; undisturbed it takes that finalizer off those secrets and changes nothing else; with its List refused it stops |
| ManilaController.ManilaReconciler.FinalizeSecretRotation | internal/controller/manila_controller.go:1090-1100 | Returns the current name for an empty or equal old one or under the guard, which takes the finalizer off the old secret and no other; otherwise the old name |
| ReconcileOutcome.EffectEnds | internal/controller/manila_controller.go:586-1180 | The pass that convergence is proved with ends there: every object, status name, TransportURL and finalizer after it is the one stated of the state before it, the guard read off the service objects as they are at the end |
| ServiceController.ServiceReconciler.Reconcile | internal/controller/manilashare_controller.go:360-644 | From any revision a cache may hold, on any outcomes of its calls and any steps of the others before each: a path of the step system, with no crash of it if its last call succeeded; with all calls succeeding and nobody else acting exactly one effect. From the current revision that is, field by field: the observed generation only, without its inputs; a new hash recorded and no more; otherwise CONFIG_HASH, and once that is observed the ready count is the number of pods, complete or not, and the spec's names are applied if and only if the wanted number is there and all run the template |
| ServiceController.EffectFromLast | internal/controller/manilashare_controller.go:545-630 | From the current revision, with the generation observed, that effect is the one convergence is proved with |
| ServiceController.EffectReconciled | internal/controller/manilashare_controller.go:545-630 | From the current revision that effect is the one stated field by field |
| ServiceController.ServiceReconciler.HashGate | internal/controller/manilascheduler_controller.go:480-499 | Ends the reconcile if and only if the recorded hash differs, undisturbed having recorded the new one |
| ServiceController.ServiceReconciler.CheckRollout | internal/controller/manilaapi_controller.go:945-998 | A path of the step system; undisturbed the recorded ready count is the number of pods, rolled out or not, and the spec's names become the applied ones if and only if the wanted number of pods is there and all run this template, else those stay |
| ServiceController.ServiceReconciler.IsReadyForInput | internal/controller/manilashare_controller.go:618-624 | True if and only if the wanted number of pods is there and all run the template with this hash |
| ShareStatus.ManilaStatus.MirrorShares | internal/controller/manila_controller.go:978-1032 | allServicesReady is API and Scheduler and every share matching; a condition results if and only if some share reports one ("Deployment in progress" for any share that is not current, whatever it says itself, else its own condition if replicas are missing), and then one such, none being more serious; ready counts are taken exactly from the current shares |
| ShareStatus.NoComplaintIff | internal/controller/manila_controller.go:996-1021 | No condition results if and only if every share matches or is unready with nothing to mirror |
| ShareStatus.AccumulatorsAgreeIff | internal/controller/manila_controller.go:1010-1022 | The two accumulators agree on a map of shares if and only if it has no such silent share or some share complains |
| ShareStatus.SilentShareMisleads | internal/controller/manila_controller.go:996-1021 | Whenever one share is silent and all others match, no condition is reported while the guard stays closed |
| ShareStatus.SilentShareExists | internal/controller/manila_controller.go:996-1021 | One such input: a share without conditions whose one replica is not there yet |
| ShareCleanup.GetOwningManilaName | internal/manila/funcs.go:17-24 | The name of the first owner of kind Manila, empty without one |
| ShareCleanup.RunMetadata | internal/controller/manila_controller.go:1487-1495 | Over every run, in which others create objects under any names and edit labels and owners, each object carries the metadata of the last event that wrote it: the operator's own label for its key, or what somebody else wrote |
| ShareCleanup.MineIsLabelled | internal/controller/manila_controller.go:1487-1495 | An object that the operator created and nobody edited is owned, and its label is the key it is named after, through whatever shared label map it was created |
| ShareCleanup.WantedDeletedIff | internal/controller/manila_controller.go:1712-1729 | In every run a cleanup deletes the object of a wanted share if and only if somebody else was the last to write its metadata and left it owned with a label that names no wanted share; otherwise it does not touch it |
| ShareCleanup.UnwantedIsDeleted | internal/controller/manila_controller.go:1712-1729 | The operator's own object of an unwanted share is deleted by every cleanup |
| ShareCleanup.UnownedIsUntouched | internal/controller/manila_controller.go:1712-1717 | An object that the Manila does not own is never touched |
| ShareCleanup.AdoptedSurvivesIff | internal/controller/manila_controller.go:1714-1720 | For any store, owner and key: an object under the operator's name, deployed and then cleaned up, stays undeleted if and only if it is not owned or the label it came with names a wanted share |
| ShareCleanup.AdoptedShareIsDeleted | internal/controller/manila_controller.go:1714-1720 | So a hand-made object without the label is adopted and then deleted though its share is wanted |
| ShareCleanup.ShareReconciler.DeployShares | internal/controller/manila_controller.go:978-996 | The loop over the spec with one shared label map: without faults it succeeds if and only if no object in its way has another controller; then every wanted share's object is there, a new one labelled with its own key, an existing one with the labels it had; other objects are as before |
| ShareCleanup.ShareReconciler.CreateOrUpdate | internal/controller/manila_controller.go:1477-1535 | Succeeds if and only if its call does and no other controller owns the object; a new object has all entries of the shared map with its own key under share-name, the Manila as its one owner, and is not deleted; an existing one keeps its labels and gets the spec |
| ShareCleanup.ShareReconciler.Cleanup | internal/controller/manila_controller.go:1695-1736 | Without faults it succeeds. On success exactly the objects whose first owner of kind Manila is this one and whose label names no wanted share are marked; a job is due if and only if one of them was not marked yet, and exactly their ready counts are gone; on failure some of them and nothing else |
| InputHash.SameHashIff | internal/controller/manilashare_controller.go:728-746 | With the same names, duplicates and empty ones included, two input hashes are equal if and only if every read secret whose variable is not overwritten is equal |
| InputHash.SameHashWithoutCollision | internal/controller/manila_common.go:197-243 | Without a key collision that is every read secret |
| InputHash.CollisionLosesChange | internal/controller/manila_common.go:239-243 | A service secret called "secret-x" beside a listed secret x changes unseen |
| InputHash.ConfigVars.VerifyConfigSecrets | internal/controller/manila_common.go:203-247 | Skips empty names, records every other under its prefixed name; it fails if and only if some read fails after all names before it were read, and waits if and only if some secret is missing after all before it were read, with exactly the variables of those before it left |
| InputHash.ConfigVars.VerifyServiceSecret | internal/controller/manila_common.go:162-198 | Records the service secret under its bare name, or waits, or fails |
| InputHash.VerifiedIff | internal/controller/manila_common.go:213-238 | All names were read if and only if none is missing or unreadable |
| Healthcheck.ParseHomomorphism | templates/manila/bin/healthcheck.py:177-205 | parse(x + newline + y) is parse(x) followed by parse(y), for all texts |
| Healthcheck.JoinSplit | templates/manila/bin/healthcheck.py:183-183 | The line split loses nothing and leaves no newline |
| Healthcheck.TokensOfLine | templates/manila/bin/healthcheck.py:187-187 | The word split gives back the words of a line, however it is padded |
| Healthcheck.LineRecord | templates/manila/bin/healthcheck.py:185-205 | What any line of printable words with blanks between them is read as: a record of its first two words if and only if there are two, the first is "manila-share" or "manila-scheduler" and none is "Binary"; it is enabled, or up, if and only if some word is "enabled", or ":-)" |
| Healthcheck.SpacedRow | templates/manila/bin/healthcheck.py:177-205 | A row of printable words with any number of blanks between and around them is read back as its record if and only if no word of it misleads as in `RowRoundTrip` |
| Healthcheck.TableExample | templates/manila/bin/healthcheck.py:177-205 | One literal table, and the records that it is read as |
| Healthcheck.RowRoundTrip | templates/manila/bin/healthcheck.py:119-158 | A row of a known service is read back as its record if and only if no other word of it is "Binary", or "enabled" on a disabled row, or ":-)" on a row that is down |
| Healthcheck.MisreadRow | templates/manila/bin/healthcheck.py:119-126 | A disabled service in a zone called "enabled" is read as enabled |
| Healthcheck.TableRoundTrip | templates/manila/bin/healthcheck.py:177-205 | Parsing a rendered table returns exactly the records of the known services, in order |
| Healthcheck.ParseServiceListOutput | templates/manila/bin/healthcheck.py:177-205 | The loop over the lines computes that parse |
| Healthcheck.HeartbeatServer.DoGet | templates/manila/bin/healthcheck.py:207-234 | 200 if and only if the command ran, its output decodes and every check passes; a decoding error leaves the request unanswered; otherwise 500 with the error of the command or of the first filter whose check fails |
| Healthcheck.HeartbeatServer.constructor | templates/manila/bin/healthcheck.py:96-117 | One filter for each enabled backend of a share service, one with a state for the scheduler |
| Healthcheck.ShareHealth | templates/manila/bin/healthcheck.py:96-234 | On any rendered table: 200 if and only if every enabled backend has an enabled row and all its enabled rows are up, whatever other rows there are |
| Healthcheck.SchedulerHealth | templates/manila/bin/healthcheck.py:96-234 | On any rendered table: 200 if and only if some enabled scheduler row on the host is up |
| RouteTimeout.Route.SetDefaultRouteAnnotations | api/v1beta1/manila_webhook.go:329-352 | One call: leaves a human's timeout, drops a stale flag, or sets both annotations to the APITimeout's text; other annotations stay |
| RouteTimeout.TimeoutText | api/v1beta1/manila_webhook.go:349-349 | The text is an optional sign, decimal digits without a leading zero that read as the number, and "s"; the sign is there exactly for a negative timeout |
| RouteTimeout.TimeoutInjective | api/v1beta1/manila_webhook.go:349-349 | Different timeouts have different texts |
| RouteTimeout.HumanTimeoutSurvives | api/v1beta1/manila_webhook.go:338-347 | A timeout that a human owns survives every later sequence of calls and unrelated edits |
| RouteTimeout.HumanEditSurvivesIff | api/v1beta1/manila_webhook.go:338-352 | After later calls a human's value is there if and only if it differed from the flag at that moment or is the latest APITimeout; a value equal to the flag is replaced |
| RouteTimeout.NoHumanMeansLatest | api/v1beta1/manila_webhook.go:349-352 | With no human edits both annotations are the latest APITimeout |
| RouteTimeout.RemovalHandsBack | api/v1beta1/manila_webhook.go:338-352 | Removing the timeout hands it back to the operator |

## Left out

- RotationExposure.PodPinnedIff: says nothing about application-credential secrets, because the code does not provide it (line 815 before line 856), nor about a Manila that is being deleted.
- RotationHistory.ACMovesUnderGuard: the guard does not cover the AC secret's own rollout, so this is about the status and not about pods.
- ManilaController.ManilaReconciler.Reconcile: its service loop takes the services in any order, where the code takes API, Scheduler, then shares by name.
- ManilaController.ManilaReconciler.ReconcileDelete: reads its own object and the two TransportURLs at one moment, after the database calls; without a database there are fewer of these.
- ServiceController.ServiceReconciler.Reconcile: the network attachment test between the generation check and the rollout check is one of the outcomes of the call that it belongs to.
- Convergence.RoundsConverge: effects are whole reconciles that do not overlap; overlapping ones are in `FairBehavioursConverge`, which gives no bound.
- RotationFairness.FairBehavioursConverge: in the behaviour itself the environment rests, reads are current, and no late teardown happens; `FairGoingsConverge` allows late teardowns and what the environment then has to do. Before it begins anything may have happened.
- Healthcheck.HeartbeatServer.DoGet: the subprocess and the sockets; messages are their kind and filter, not their text.
- The early return and the finalizer of a new service object, the services' own deletion beyond the object vanishing with its pods, and Keystone endpoints.
- Database creation, the DB sync, cleanup and cron jobs, RBAC, memcached, TLS, network attachments, topology and the condition texts.
- Template rendering: a configuration is the names it was rendered from and a version for every other input.
- Watches and their request lists: when a reconcile happens is left to the schedule.
- The defaulting and validating webhooks other than the route annotation, probe arithmetic and generated code.
- The API server's client, cache and patch helper beyond their contracts; a status patch that conflicts is a failed call.
