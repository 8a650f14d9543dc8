# Sessions, garbage collection and routing

Mr. Telepresence gives every client of a session one pod per client pod template, keeps that pod while the client is away
for no longer than a grace period, and publishes the pod's ports through an ingress. Three controllers share the work, and
none of them sees the others:

- the session controller expires clients, packs new ones onto pods, reuses idle pods, mints names for new ones, opens and
  closes GC registrations, writes the status and spawns what is missing;
- the garbage collector takes every registration from no timeout to deletion;
- the network controller gives every pod a service and keeps the ingress rules in step with the services.

This project models the three controllers in the form their code has (methods with loops over mutable maps and lists, whose
API writes may each fail) and proves each method against a specification on values. The specifications are then put
together as one transition system over a shared cluster (`system.dfy`), in which clients join, lose connection, return and
leave, time passes, pods turn ready or vanish, and every pass may stop at any failed write. The main theorems are about
that system.

## How the files build on each other

| file | module | content |
|---|---|---|
| `strings.dfy` | `Strings` | splitting, joining, first and last index, lexical order |
| `names.dfy` | `Names` | pod, service and path names, and what can be read back from them |
| `model.dfy`, `model_laws.dfy` | `Model`, `ModelLaws` | the stored objects and the vocabulary of the specifications, and what it means for templates, containers and ports by their position |
| `session_updates.dfy` | `SessionUpdates` | the test that decides whether a session change is worth a pass |
| `session_status.dfy` | `SessionStatus` | expiring clients and noticing who came, went or returned |
| `pod_index.dfy`, `pod_order.dfy` | `PodIndex`, `PodOrder` | the pods-to-clients index and the order it is sorted in |
| `placement.dfy`, `allocator.dfy` | `Placement`, `Allocator` | what placing clients promises, and the algorithm that does it |
| `cluster.dfy` | `Cluster` | the API server; a write may fail, and then has no effect |
| `registrations.dfy` | `RegistrationManager` | opening and closing GC registrations |
| `readiness.dfy` | `ReadinessReport` | readiness and paths in the status; what to spawn |
| `client_pods.dfy` | `ClientPods` | the whole client-pod pass and its effects |
| `conditions.dfy`, `session_pods.dfy` | `Conditions`, `SessionPods` | the Ready condition, and the pods all clients of a session share |
| `session_controller.dfy` | `SessionController` | a whole reconcile of a session |
| `garbage_collector.dfy` | `GarbageCollector` | one pass over all registrations |
| `network.dfy`, `ingress_laws.dfy` | `Network`, `IngressLaws` | services, the in-place ingress loops and their laws |
| `system.dfy`, `steps.dfy`, `system_inv.dfy` | `System`, `Steps`, `SystemInvariant` | the transition system and its invariant |
| `run_laws.dfy`, `pass_laws.dfy`, `path_laws.dfy` | `RunLaws`, `PassLaws`, `PathLaws` | every reachable state, every pass, what a pass advertises |
| `resumption.dfy`, `status_gate.dfy` | `Resumption`, `StatusGate` | passes that stopped, passes that skip the status |
| `grace.dfy`, `resurrection.dfy`, `reclamation.dfy` | `Grace`, `Resurrection`, `Reclamation` | session controller and garbage collector together |
| `grace_limits.dfy`, `failed_writes.dfy` | `GraceLimits`, `FailedWrites` | what a failed write costs, in general and in three runs |
| `overlap.dfy`, `overlap_laws.dfy`, `overlap_run.dfy` | `Overlap`, `OverlapLaws`, `OverlapRun` | collections that overlap with other passes: the moves, the laws, and a run |
| `routing.dfy` | `Routing` | session controller and network controller together |

## What turned out not to hold as it stands

- Grace can be lost in two ways, both because registrations change before the status is written. `ReconcileClientPods`
  ignores the error of `manageGCRegistrations` (client_pods.go:96), so a registration it failed to delete can stand on a pod
  whose client has returned. And a pass can register a pod whose client it found lost and then fail to write that
  (session_controller.go:109), so that the stored status still has the client connected. Either way the garbage collector
  deletes the pod under a connected client. `Grace.GraceAfterPass` says exactly when a pass keeps grace, completed or not;
  `GraceLimits.LeftRegistrationIsReaped` and `GraceLimits.UnwrittenRegistrationIsReaped` show where the two ways lead, and
  `FailedWrites.FailedDeregistration` and `FailedWrites.FailedStatusWrite` are runs from an initial state that go there. In
  the first of them the deleted name then comes back; `Resurrection.ReturnsIffCarried` says exactly when a name does. These runs
  are over any session with one template for single clients; `FailedWrites.InstanceExists` has one for every name, and
  `FailedWrites.TwoPartNamesAreSessions` a name.
- Grace safety and no resurrection need grace when the collection starts. It holds in all runs of completed passes
  (`Grace.FinishedRunIsGraceful`), and after a loss it is back exactly under the condition of
  `Grace.GraceAfterFinishedPass`.
- A pass that returns without an error need not have stored the status it computed. The status and the annotation with its
  hash are two writes (session_controller.go:106-118). If the second fails and a later pass computes the status that is
  still annotated, it skips the write and succeeds, and the store keeps the status in between.
  `StatusGate.FinishedPassStores` has the exact condition and `FailedWrites.FailedAnnotation` a run in which a client that
  left stays recorded as connected. What is created is recorded all the same (`PassLaws.CreatedIsRecorded`).
- If the session controller works while a collection is under way, the collection still goes by what it listed, so
  deregistering the pod of a returning client does not save it, and the pod's name comes back with the next pass.
  `OverlapRun.OverlappingCollection` is a run from an initial state in which that happens although every pass goes through
  and grace holds throughout. `Overlap.PassDuringCollection` says exactly which passes leave a listed pod safe to delete,
  and `OverlapLaws.PassWithRoom` and `OverlapLaws.ReuseDuringCollection` what can be told before the pass: only reuse
  endangers the pod. `OverlapLaws.OverlapSafety` and `OverlapLaws.OverlapSafetyByRoom` are grace safety under those
  conditions.
- A reconcile of a session with session templates panics if and only if the address is unknown, because `session_pods.go:39`
  dereferences it before the check at line 45, and never gets to the client pods (`SessionController.Reconcile`).
- A network pass panics if and only if a service the controller does not list, for want of its label, has the name that the
  service of a pod without rules would have: `spawnServices` then maps the name to nil (network_controller.go:70-76), which
  `publishToIngress` dereferences (`Network.NetworkApi.Reconcile`).
- A second network pass is idle if and only if each service with a port has, in the map, the service its name minus four
  characters would have (`IngressLaws.SecondPassIsIdle`). With a labelled service of another name the ingress
  changes on every pass.
- A path can be recovered from its rewritten form if and only if the address has no `/` (`Names.HostRecoverable`).
- A pod without a Ready condition counts as ready in the check of the session's own pods, but not in that of client pods
  (`SessionPods.ReconcileSessionPods`, `RunLaws.ReadinessIsExact`).

## Model

| member | source | states |
|---|---|---|
| `Names.ClientPodNameParses` | controllers/session/internal/controller/client_pods.go:250 | The template and the suffix are recovered from a composed pod name by splitting at dashes, for any one-dash session name. |
| `Names.WellNamedComposes` | controllers/session/internal/controller/client_pods.go:160-173 | Conversely, every name with those four pieces is a composed one. |
| `Names.SameTemplateDifferentId` | controllers/session/internal/controller/client_pods.go:217-230 | Two pods of one template differ in the part of the name that the pod order compares. |
| `Names.SessionPodNameParses` | controllers/session/internal/controller/session_pods.go:83 | A session pod's name gives back its template and can never be a client pod's name. |
| `Names.ServiceNameParses` | controllers/network/internal/controller/ingress.go:85 | The pod's name is recovered from its service's name. |
| `Names.RulePathParses` | controllers/network/internal/controller/ingress.go:59-90 | The pod's name is recovered from any ingress path published for it. |
| `Names.RulePathIsNotSessionManager` | controllers/network/internal/controller/ingress.go:55-57 | No pod and port make a path that passes for the session manager's. |
| `Names.HostRecoverable` | controllers/session/internal/controller/client_pods.go:479-490 | Rewriting keeps a path rewritable; the path without host is recovered if and only if the address has no `/`. |
| `Names.RewriteOverwrites` | controllers/session/internal/controller/client_pods.go:479-490 | Rewriting with a second address after a first equals rewriting the original with the second, so rewriting is idempotent. |
| `SessionUpdates.SessionUpdateFunc` | controllers/session/internal/controller/utils/predicates.go:9-28 | Comparing sizes and looking up each new client reports a change exactly when the two client maps differ. |
| `SessionStatus.Session.CleanExpiredClients` | controllers/session/internal/controller/client_pods.go:103-122 | A client stays, with its entry as it was, exactly if it is marked connected or the clock is still before the instant it was last seen plus the timeout. |
| `SessionStatus.Session.HandleClientChanges` | controllers/session/internal/controller/client_pods.go:124-149 | Lost clients are stamped with the clock, returned ones marked connected, all others untouched; the arrivals are listed once each. |
| `SessionStatus.StepsCompose` | controllers/session/internal/controller/client_pods.go:65-85 | Expiry, refresh and dropping leavers compose to one description of who is carried over and who is new. |
| `ModelLaws.EveryTemplateIsMapped` | controllers/session/internal/controller/client_pods.go:151-158 | Every listed template is found under its name, and of several with one name the last counts. |
| `ModelLaws.OnlyTemplatesAreMapped` | controllers/session/internal/controller/client_pods.go:151-158 | And nothing else is found. |
| `ModelLaws.AllPortsAt` | controllers/session/internal/controller/client_pods.go:297-301 | Each port of each container stands after those of all earlier containers, at its own place. |
| `ModelLaws.EveryPortIsSomeones` | controllers/session/internal/controller/client_pods.go:297-301 | Every port in the list is one of a container's. |
| `ModelLaws.FreshPaths` | controllers/session/internal/controller/client_pods.go:294-304 | A new pod status has one path per port of every container, in order: slash, pod, slash, port. |
| `ModelLaws.ListingsDivide` | controllers/session/internal/controller/client_pods.go:52-58 | The listings of client pods and of session pods divide a session's pods and have nobody else's. |
| `PodOrder.BeforeIsStrictTotalOrder` | controllers/session/internal/controller/client_pods.go:209-230 | The negated comparison handed to the library sort is a strict total order on distinct pods of one template. |
| `PodOrder.SortSorts` | controllers/session/internal/controller/client_pods.go:209-215 | Sorting by it yields a sorted list. |
| `PodOrder.SortedMeans` | controllers/session/internal/controller/client_pods.go:209-230 | In the sorted list a pod stands earlier exactly if it has more clients, or as many and an id that is larger at the first difference. |
| `PodOrder.SortKeeps` | controllers/session/internal/controller/client_pods.go:209-215 | Sorting rearranges and loses nothing. |
| `PodOrder.SortIsDetermined` | controllers/session/internal/controller/client_pods.go:211-213 | Any two sorted arrangements of the same pods are equal, so it does not matter which algorithm the library uses. |
| `PodOrder.SortAgrees` | controllers/session/internal/controller/client_pods.go:209-215 | A sorted list stands for the same client-pod pairs. |
| `PodIndex.AddToPodAgrees` | controllers/session/internal/controller/client_pods.go:193-195 | Appending a client to a listed pod extends what the list stands for by that one pair. |
| `PodIndex.AddPodAgrees` | controllers/session/internal/controller/client_pods.go:199-201 | So does appending a new pod that holds the client. |
| `PodIndex.IndexAgreesIff` | controllers/session/internal/controller/client_pods.go:185-205 | An index that agrees with any pairs is the index of the session exactly when all its pods are of the session's templates. |
| `PodIndex.PlacementPacks` | controllers/session/internal/controller/client_pods.go:243-260 | A placement keeps the list within capacity, packed and fullest first, and the pod it picks is a fullest one with room. |
| `PodIndex.PackedSize` | controllers/session/internal/controller/client_pods.go:232-284 | A packed list has as many pods as its clients need, never fewer than it began with. |
| `Allocator.TemplatePodMapping` | controllers/session/internal/controller/client_pods.go:160-173 | Groups all listed pods under the template in their name. |
| `Allocator.InitAllocationMap` | controllers/session/internal/controller/client_pods.go:151-158 | Every listed template has its entry with no pods; of several with one name the last counts. |
| `Allocator.Allocation.BuildAllocationMap` | controllers/session/internal/controller/client_pods.go:175-207 | The index gains exactly the client's pairs, with the right connected flag, and the reuse map loses exactly its pods; pods of no known template get a list of their own. |
| `Allocator.RecordClient` | controllers/session/internal/controller/client_pods.go:189-201 | The client goes to the first pod of that name, or to a new pod when there is none. |
| `Allocator.Allocation.SortAllocationMap` | controllers/session/internal/controller/client_pods.go:209-215 | Every template's list is fullest first and the index still agrees with the same pairs. |
| `Allocator.FindFirstPodAvailable` | controllers/session/internal/controller/client_pods.go:274-284 | The first pod below capacity, or -1 when all are full. |
| `Allocator.ReutilizePod` | controllers/session/internal/controller/client_pods.go:286-292 | Some idle pod of the template, or the empty string exactly when there is none. |
| `Allocator.BuildPodStatus` | controllers/session/internal/controller/client_pods.go:294-304 | One path per container port, in order, not ready. |
| `Allocator.Allocation.PlaceClient` | controllers/session/internal/controller/client_pods.go:243-262 | A client goes to the first pod with room, else to an idle pod, which stops being idle, else to a minted name. |
| `Allocator.PlacementKeepsProgress` | controllers/session/internal/controller/client_pods.go:242-264 | Each single placement keeps index agreement, packing, the reuse map and the freshness of the names still to be drawn. |
| `Allocator.Allocation.AllocateClients` | controllers/session/internal/controller/client_pods.go:232-272 | All newcomers get one pod per template with nobody moved, within capacity and on as few pods as possible; the index and the reuse map agree with the new status. |
| `Placement.PodsOpened` | controllers/session/internal/controller/client_pods.go:232-272 | Placing n clients with f free slots opens exactly max(0, ceil((n - f) / MaxClients)) pods of each template. |
| `Placement.PackingIsOptimal` | controllers/session/internal/controller/client_pods.go:232-284 | No placement that keeps the current assignments and respects capacity uses fewer pods of any template. |
| `Placement.CapacityNeedsPods` | controllers/session/internal/controller/client_pods.go:274-284 | Any status within capacity has at least the quotient rounded up of pods per template. |
| `RegistrationManager.NamesAre` | controllers/session/internal/controller/client_pods.go:306-347 | What the index and the reuse map call empty and busy is what the status and the cluster say is idle and busy. |
| `RegistrationManager.PodIsEmpty` | controllers/session/internal/controller/client_pods.go:390-401 | True exactly when no client on the pod is connected. |
| `RegistrationManager.CreateGCRegistration` | controllers/session/internal/controller/client_pods.go:352-388 | The namespace is made sure of first, and its failure creates nothing; a name that is already registered keeps its registration. |
| `RegistrationManager.ManageGCRegistrations` | controllers/session/internal/controller/client_pods.go:306-350 | Registrations change for the idle and busy pods dealt with before the first failed write and for no others; without a failure those are all of them. |
| `ReadinessReport.ConcatIngressExternalIp` | controllers/session/internal/controller/client_pods.go:479-490 | Rewriting in place equals rewriting each original path. |
| `ReadinessReport.SetClientStatusReadiness` | controllers/session/internal/controller/client_pods.go:441-477 | Each client listed on the pod has that pod's entry set and its own readiness recomputed; nobody else changes. |
| `ReadinessReport.OneMoreReported` | controllers/session/internal/controller/client_pods.go:452-473 | Whatever the order of pods, the last of a client's pods leaves its readiness the conjunction over all of them. |
| `ReadinessReport.ReconcilePods` | controllers/session/internal/controller/client_pods.go:403-439 | The status equals the one-line definition of readiness and paths, and the spawn list holds exactly the allocated pods the cluster lacks, each once. |
| `ClientPods.BuildIndex` | controllers/session/internal/controller/client_pods.go:76-85 | Leavers are dropped and the index and the reuse map agree with the clients that remain. |
| `ClientPods.PlaceClients` | controllers/session/internal/controller/client_pods.go:65-92 | From listing to placement: the status is the carried clients with the newcomers placed. |
| `ClientPods.ReconcileClientPods` | controllers/session/internal/controller/client_pods.go:40-101 | Everything up to the status write, including a registration write that fails unnoticed. |
| `ClientPods.Reconcile` | controllers/session/internal/controller/session_controller.go:92-127 | A pass in the order registrations, status, annotation, pods, wherever it stops; a success without failed registrations has done all of it, or skipped the status because its hash was annotated. |
| `ClientPods.WriteStatus` | controllers/session/internal/controller/session_controller.go:103-119 | The status is written and then its hash annotated, unless that hash is the annotated one; either write may fail. |
| `ClientPods.WriteAndSpawn` | controllers/session/internal/controller/session_controller.go:103-127 | Pods are created only after the annotation went through or the write was skipped. |
| `ClientPods.SpawnPods` | controllers/session/internal/controller/session_controller.go:121-125 | The created pods are among the missing ones, and all of them unless a write failed. |
| `SessionPods.CountTestIsSetTest` | controllers/session/internal/controller/session_pods.go:42-52 | For found pods that are template pods, as many pods as templates means none is missing; with distinct template names also conversely. |
| `SessionPods.CountConnectedClients` | controllers/session/internal/controller/session_pods.go:162-172 | The number of clients the spec marks connected. |
| `SessionPods.Report.BuildPodsStatus` | controllers/session/internal/controller/session_pods.go:107-122 | One unready entry per template with its paths on the address. |
| `SessionPods.ReportedPathsAre` | controllers/session/internal/controller/session_pods.go:112-119 | Each port of each container of the last template of a name is advertised at its place, with scheme and address. |
| `SessionPods.Report.SetPodsStatusToTrue` | controllers/session/internal/controller/session_pods.go:124-129 | Every entry becomes ready and nothing else changes. |
| `SessionPods.Report.SetReadyCondition` | controllers/session/internal/controller/utils/conditions.go:31-77 | The given Ready condition stands last, in the place of the last Ready entry there was; all other entries are there as before and in their order. |
| `Conditions.ContainsCondition` | controllers/session/internal/controller/utils/conditions.go:47-56 | The last position of a condition of that kind, or -1 if there is none. |
| `Conditions.OneReadyEntry` | controllers/session/internal/controller/utils/conditions.go:31-45 | A session with at most one Ready condition has exactly the given one afterwards. |
| `SessionPods.ManageGCRegistrationsForSessionPods` | controllers/session/internal/controller/session_pods.go:131-160 | The found pods are registered if nobody is connected and deregistered otherwise, up to the first failed write. |
| `SessionPods.RestorePods` | controllers/session/internal/controller/session_pods.go:68-105 | Exactly the template pods that were not found are created, up to the first failed write. |
| `SessionPods.ReconcileSessionPods` | controllers/session/internal/controller/session_pods.go:17-66 | It panics exactly on an unknown address and then changes nothing. Otherwise the pass meets its relation whatever fails; entries are reported ready exactly when the count matches and no found pod is known not to be ready, and the Ready condition is the one of the branch taken. |
| `SessionPods.ReportIsExact` | controllers/session/internal/controller/session_pods.go:38-63 | Pods are reported ready exactly when there are as many as templates and none has a Ready condition that is false or unknown; the Ready condition says the same, or, while pods are missing that somebody needs, whether they were restored. |
| `SessionPods.SessionPodsRestored` | controllers/session/internal/controller/session_pods.go:38-63 | After a restoring pass every template pod is there if somebody is connected, and a found pod is registered exactly when nobody is. |
| `SessionController.Reconcile` | controllers/session/internal/controller/session_controller.go:60-128 | Panics exactly with session templates and an unknown address, with nothing changed. Otherwise one pass over the session pods and, unless that failed, one over the client pods, both on one list of registrations; the hash covers the report the first half made. |
| `GarbageCollector.HandleExpiredRegistration` | controllers/gc/internal/controller/gc_controller.go:75-102 | The pod is deleted before its registration, or the registration moves to the second stage; a failure leaves the rest undone. |
| `GarbageCollector.Reconcile` | controllers/gc/internal/controller/gc_controller.go:36-73 | Every registration dealt with gets the verdict for its session, pod, age and type, up to the first failed write. |
| `GarbageCollector.OneMoreSettled` | controllers/gc/internal/controller/gc_controller.go:36-71 | One more registration changes the outcome by its own verdict alone. |
| `GarbageCollector.ReapedIsPastDeadline` | controllers/gc/internal/controller/gc_controller.go:83-93 | Whichever branch deletes a pod, both its periods have passed. |
| `GarbageCollector.FinishedPassLeavesLive` | controllers/gc/internal/controller/gc_controller.go:36-71 | After a pass without failures every registration left has a live session and a live pod. |
| `GarbageCollector.PassOnOne` | controllers/gc/internal/controller/gc_controller.go:36-102 | All that a pass, finished or stopped, can do to one registration and its pod. |
| `GarbageCollector.StagesOfOne` | controllers/gc/internal/controller/gc_controller.go:75-117 | By age and type alone: a registration in its first stage stays as it is up to the timeout and then moves to the second stage, or goes with its pod if that has no length; in the second stage it goes when both periods are over. |
| `GarbageCollector.TwoPassesReap` | controllers/gc/internal/controller/gc_controller.go:75-117 | Two passes past the deadline that each deal with a registration leave neither it nor its pod, whatever else changed in between. |
| `Network.NetworkApi.SpawnService` | controllers/network/internal/controller/network_controller.go:82-127 | The service has the ports of all containers in order, or the default port if there is none; a taken name is reported as such, and nothing is known of the service then. |
| `Network.ServicePortsAt` | controllers/network/internal/controller/network_controller.go:89-103 | A service has each port of each container at its place, and without any the default port 8080. |
| `Network.NetworkApi.SpawnServices` | controllers/network/internal/controller/network_controller.go:59-80 | Every pod dealt with has a service unless its name is taken, existing ones stay as they are, and the map used for the ingress has the stored services and nil for exactly the taken names. |
| `Network.NetworkApi.Reconcile` | controllers/network/internal/controller/network_controller.go:30-57 | A pass publishes only after every pod was dealt with, and the stored ingress is then the filtered and extended one, written or not; it panics exactly when a pod without rules has a service name that is taken. |
| `Network.Ingress.GarbageCollection` | controllers/network/internal/controller/ingress.go:42-71 | The loop that removes in place terminates and equals an order-preserving filter; it returns the pods that had rules, and whether anything was removed. |
| `Network.Ingress.Publish` | controllers/network/internal/controller/ingress.go:73-106 | Appends, service by service, the rules of those whose pod had none, and reports whether any rule was appended; it panics exactly if such a service is nil. |
| `IngressLaws.IdleIffStable` | controllers/network/internal/controller/ingress.go:29-37 | What the loops report is exact: the ingress comes out as it was if and only if nothing was removed and nothing was to be published. |
| `IngressLaws.RuleAfter` | controllers/network/internal/controller/ingress.go:42-106 | A rule is there after a pass exactly if it was kept or published for a service whose pod had no rule. |
| `IngressLaws.PodsWithRules` | controllers/network/internal/controller/ingress.go:51-101 | Which pods have rules after a pass, for services of any name. |
| `IngressLaws.IngressAgreesWithServices` | controllers/network/internal/controller/ingress.go:42-106 | With services named after pods, the pods with rules are exactly those whose service exists. |
| `IngressLaws.SessionManagerUntouched` | controllers/network/internal/controller/ingress.go:55-57 | The session manager's rules are neither added, dropped nor reordered. |
| `IngressLaws.SecondPassIsIdle` | controllers/network/internal/controller/ingress.go:42-106 | A second pass, whatever the map order of either, changes nothing if and only if every service with a port has its pod's service in the map. |
| `IngressLaws.PassKeepsMatch` | controllers/network/internal/controller/ingress.go:84-101 | A pass keeps every pod's rules exactly those its ports call for. |
| `SystemInvariant.StepKeepsInv` | controllers/session/internal/controller/session_controller.go:60-128 | Every step of the environment and of the three controllers keeps the invariant, completed or stopped. |
| `SystemInvariant.RunKeepsInv` | controllers/session/internal/controller/session_controller.go:60-128 | The invariant holds in every state of every run. |
| `RunLaws.PassesCanRun` | controllers/session/internal/controller/client_pods.go:160-185 | Every reachable state meets what the methods rely on, such as names that can be split. |
| `RunLaws.OnePodPerTemplate` | controllers/session/internal/controller/client_pods.go:151-173 | In every reachable state each status client holds one pod name per template and no others, and each name parses back. |
| `RunLaws.OnePodPerListedTemplate` | controllers/session/internal/controller/client_pods.go:236-270 | In every reachable state each status client has exactly one pod for each template in the list, and none of any other. |
| `RunLaws.CapacityHolds` | controllers/session/internal/controller/client_pods.go:232-284 | In every reachable state no pod is recorded for more than MaxClients clients, those in grace included. |
| `RunLaws.PassOpensFewestPods` | controllers/session/internal/controller/client_pods.go:232-284 | Any pass of a run that stores its status opens exactly the number of pods the free slots leave to open, and no assignment does with fewer. |
| `RunLaws.ReadinessIsExact` | controllers/session/internal/controller/client_pods.go:403-477 | After a pass that stored its status a pod is ready exactly if it is in the cluster with Ready=True and the address is known, and a client exactly if all its pods are. |
| `RunLaws.FinishedPassSpawnsMissing` | controllers/session/internal/controller/session_controller.go:121-125 | After a finished pass that stored its status the cluster has its old pods and every recorded one, the new ones as client pods of the session with their template's containers. |
| `RunLaws.NewRegistrations` | controllers/session/internal/controller/client_pods.go:372-387 | What a pass registers is of the first type, made now and in the name of the session; existing registrations stay as they are. |
| `RunLaws.RegistrationsArePast` | controllers/session/internal/controller/client_pods.go:372-387 | In every reachable state no registration was made later than now, and all are the session's. |
| `RunLaws.SessionPodsAreTemplatePods` | controllers/session/internal/controller/session_pods.go:42-52 | In every reachable state the session pods found are template pods, and the count test succeeds exactly when none is missing. |
| `RunLaws.SessionPodsComeBack` | controllers/session/internal/controller/session_pods.go:38-63 | In every run, a restoring pass without failures leaves all template pods if somebody is connected, registered exactly if nobody is. |
| `RunLaws.RestoredPods` | controllers/session/internal/controller/session_pods.go:82-98 | A restored pod is a session pod with the containers of the first template of its name. |
| `PassLaws.ExactStatus` | controllers/session/internal/controller/client_pods.go:65-85 | After a pass that stored its status, the status has exactly the connected clients of the spec and the recorded ones away for less than the timeout. The sentinel marks exactly the connected; who was lost just now was last seen now, the others when they were before. |
| `PassLaws.Stickiness` | controllers/session/internal/controller/client_pods.go:124-149 | A client that is in the spec at every pass, and away for less than the timeout, keeps its pod names over any number of steps. |
| `PathLaws.AdvertisedPaths` | controllers/session/internal/controller/client_pods.go:441-490 | After a pass that stored its status, a pod reported ready advertises each port of each container of its template as https, address, pod and port; every other pod advertises what it did before, and those of clients just placed the bare paths. |
| `PassLaws.RegisteredIffIdle` | controllers/session/internal/controller/client_pods.go:306-350 | After a finished pass that stored its status a pod of the cluster or the status is registered exactly if no connected client is on it. |
| `PassLaws.CreatedIsRecorded` | controllers/session/internal/controller/session_controller.go:109-125 | Whatever pod a pass creates is in the stored status by then, however the pass ends and even if it skipped the write over an outdated annotation. |
| `PassLaws.CreatedIsAnnotated` | controllers/session/internal/controller/session_controller.go:103-125 | And the hash of the status the pass computed is annotated by then, so a failed annotation stops a pass before its pods. |
| `PassLaws.SpentNameIsCarried` | controllers/session/internal/controller/client_pods.go:232-272 | A name that was used before and whose pod is gone is placed exactly when a client recorded on it is carried over. |
| `Resumption.ResumeAfterWrite` | controllers/session/internal/controller/session_controller.go:103-125 | After a pass that stopped once its status was stored, the next one creates exactly the pods still missing, and both together are one uninterrupted pass, annotation included. |
| `Resumption.ResumeBeforeWrite` | controllers/session/internal/controller/session_controller.go:103-112 | After a pass that stopped earlier, the next one leaves status, pods and registered names as an uninterrupted one would. |
| `Resumption.FinishedPassIsFixedPoint` | controllers/session/internal/controller/client_pods.go:40-101 | With nothing changed, the pass after a finished one that stored its status leaves the whole state as it is. |
| `StatusGate.FinishedPassStores` | controllers/session/internal/controller/session_controller.go:103-119 | A finished pass stores what it computed if and only if the annotation had another hash or the store already held it. |
| `StatusGate.StepKeepsCurrent` | controllers/session/internal/controller/session_controller.go:109-118 | The annotation falls behind the stored status in one way only: a status that was written with a failed annotation. |
| `StatusGate.RunKeepsCurrent` | controllers/session/internal/controller/session_controller.go:109-118 | Where every written status was annotated, the annotation is current in every state. |
| `Grace.GraceAfterPass` | controllers/session/internal/controller/client_pods.go:94-96 | Grace survives a client-pod pass if and only if the pass left no registration on a busy pod, or, with the status unwritten, opened none on a pod still recorded as busy. |
| `Grace.StepKeepsGrace` | controllers/session/internal/controller/client_pods.go:306-350 | All other steps keep grace: on a registered pod nobody is recorded connected or as seen after the registration. |
| `Grace.FinishedRunIsGraceful` | controllers/session/internal/controller/session_controller.go:92-125 | Runs whose client-pod passes are finished keep grace throughout, because they also store every status. |
| `Grace.RunKeepsGrace` | controllers/session/internal/controller/client_pods.go:306-350 | Grace holds wherever it held once and every pass since has kept it. |
| `Grace.GraceAfterFinishedPass` | controllers/session/internal/controller/client_pods.go:306-350 | From any reachable state, with or without grace, a finished pass that stores its status leaves grace if and only if nobody on an idle pod was seen after the registration it found there. |
| `Grace.GraceForeseen` | controllers/session/internal/controller/client_pods.go:306-350 | The same condition on what the pass carries over from the spec and the status before it is enough, and exact unless a newcomer lands on a registered pod. |
| `Grace.FinishedPassRepairs` | controllers/session/internal/controller/client_pods.go:335-345 | A failed deregistration is repaired by the next such pass as long as somebody is connected to the pod. |
| `Grace.GraceSafety` | controllers/gc/internal/controller/gc_controller.go:64-93 | When a collection deletes a pod, everybody recorded on it is disconnected, expired, and past both periods. |
| `GraceLimits.LeftRegistrationIsReaped` | controllers/session/internal/controller/client_pods.go:96 | In a run, a registration that a written pass left on a busy pod makes two collections past the deadline delete the pod under a connected client. |
| `GraceLimits.UnwrittenRegistrationIsReaped` | controllers/session/internal/controller/session_controller.go:95-112 | So does a registration that a pass opened before it failed to write the status in which the pod is idle. |
| `FailedWrites.FailedDeregistration` | controllers/session/internal/controller/client_pods.go:96 | A run from an initial state: one failed deregistration, grace is lost, a connected client loses its pod, and the next finished pass brings the name back. |
| `FailedWrites.FailedStatusWrite` | controllers/session/internal/controller/session_controller.go:109-112 | A run from an initial state: one failed status write, grace is lost, and a connected client loses its pod. |
| `FailedWrites.FailedAnnotation` | controllers/session/internal/controller/session_controller.go:103-118 | A run from an initial state: one failed annotation, and the next pass succeeds without storing what it computed. |
| `Resurrection.DeletedIsGone` | controllers/gc/internal/controller/gc_controller.go:83-93 | A client pod that was collected has a spent name and only expired users. |
| `Resurrection.StepKeepsGone` | controllers/session/internal/controller/client_pods.go:65-92 | No step, a returning client included, undoes that. |
| `Resurrection.NoResurrection` | controllers/session/internal/controller/client_pods.go:403-424 | Once a collection that found grace has deleted a client pod, its name never appears in the cluster again, however later passes end. |
| `Resurrection.ReturnsIffCarried` | controllers/session/internal/controller/client_pods.go:403-424 | A finished pass brings a spent name back if and only if somebody recorded on it is still in the spec and connected, or away for less than the timeout. |
| `Reclamation.AbandonedIsReaped` | controllers/gc/internal/controller/gc_controller.go:36-117 | In any run, a registration nobody else touches is gone, with its pod, after two collections past its deadline that get to it, with anything in between. |
| `Reclamation.IdlePodsAreReclaimed` | controllers/gc/internal/controller/gc_controller.go:36-117 | After a finished client-pod pass that stored its status, two collections past the deadline that get to them leave exactly the client pods somebody is connected to, with anything in between but other hands on the pod. |
| `Overlap.SharedRunKeepsInv` | controllers/gc/internal/controller/gc_controller.go:30-71 | With collections that deal with one listed registration at a time between other steps, the invariant still holds in every state. |
| `Overlap.PassDuringCollection` | controllers/gc/internal/controller/gc_controller.go:36-69 | A client-pod pass during a collection keeps a listed pod safe to delete if and only if it writes no status with somebody connected to it; deregistering it makes no difference. |
| `OverlapLaws.PassWithRoom` | controllers/session/internal/controller/client_pods.go:232-284 | Once the grace of everybody on a listed pod is over, no pass takes it while the newcomers fit on the pods carried over, and it stays safe. |
| `OverlapLaws.ReuseDuringCollection` | controllers/session/internal/controller/client_pods.go:243-260 | If it is the only idle pod of its template, a written pass leaves it safe if and only if the newcomers fit elsewhere. |
| `OverlapLaws.SharedRunKeepsGrace` | controllers/gc/internal/controller/gc_controller.go:36-102 | Grace holds in every state of a run with overlapping collections from which on each client-pod pass kept it. |
| `OverlapLaws.FinishedSharedRunIsGraceful` | controllers/session/internal/controller/session_controller.go:92-125 | Passes that go through keep it, so such runs are graceful throughout. |
| `OverlapLaws.OverlapSafety` | controllers/gc/internal/controller/gc_controller.go:36-93 | If grace was kept up to the listing and nobody was recorded as connected since, whoever is recorded on a deleted pod has outlasted both periods. |
| `OverlapLaws.OverlapSafetyByRoom` | controllers/gc/internal/controller/gc_controller.go:36-93 | The same if the first period of the pod was over at the listing and every later pass had room for its newcomers without it. |
| `OverlapLaws.NoResurrectionWithOverlap` | controllers/session/internal/controller/client_pods.go:403-424 | A client pod deleted without having been used since its listing never comes back. |
| `OverlapRun.OverlappingCollection` | controllers/gc/internal/controller/gc_controller.go:36-93 | A run from an initial state, with every pass finished, in which a collection deletes a deregistered pod under its connected client and the next pass brings the name back. |
| `Overlap.UndisturbedIsOneCollection` | controllers/gc/internal/controller/gc_controller.go:36-73 | With nothing in between, dealing with the listed registrations one by one is exactly one collection, stopped or finished. |
| `Routing.RulesIffService` | controllers/network/internal/controller/network_controller.go:59-80 | After a published pass the pods with rules are exactly those with a service. |
| `Routing.AdvertisedPathsAreRouted` | controllers/network/internal/controller/ingress.go:84-101 | Each path a status advertises on a pod of the cluster, without its host, has a rule to that pod's service on the container port it was made for. |
| `Routing.ContainersAreRouted` | controllers/network/internal/controller/network_controller.go:91-97 | From the containers: each port of each container of a pod is in its service and has its rule, and whoever is recorded on the pod advertises it, up to the address. |
| `Routing.PortlessPodsAreServed` | controllers/network/internal/controller/network_controller.go:99-103 | A pod without ports is served and routed on the default port. |
| `Routing.RulesLeadToTheirPod` | controllers/network/internal/controller/ingress.go:84-101 | And no other rule exists but the session manager's: each leads to an existing service, on a port of the pod its path names. |
| `Routing.RunRoutesAdvertisedPaths` | controllers/session/internal/controller/client_pods.go:294-304 | The same at any published pass of any run. |

## Left out

- Several sessions in one system: `System` has one session. The garbage collector's own theorems take any number.
- Kubernetes itself: caches that lag behind, watches, owner references, field indexes, leader election. Listing and writing
  are atomic, a deleted pod is gone at once, and a list call that fails (the pass returns before doing anything) is a pass
  that did not happen.
- Which failed write stopped a pass is left open: each write succeeds or fails arbitrarily, and a failed one has no effect.
- Time: one clock in whole seconds, read once per pass, monotone, and past the instant that marks a connected client;
  durations do not overflow. The two controllers read the same clock.
- Names: session names have exactly one dash and no slash, template names and suffixes neither; other names would make
  `client_pods.go:164` panic or misread. Names compare by character, which for Kubernetes names is by byte.
- Minted suffixes: an oracle whose suffixes are four characters and give names not used before in the run. The source
  draws four hexadecimal digits and does not check; a repeated draw could put two clients on one pod name.
- `MaxClients` is at least one, the timeout at least one second and the second timeout not negative, and all are constant
  over a run; a spec that changes templates between passes is not modelled.
- Map iteration order and `reutilizePod`'s choice are arbitrary; the results hold for every order.
- The library sort is an insertion sort by the same comparison; sortedness determines the result.
- Hash collisions: statuses with one hash are taken to be equal. Of the status only the clients are part of the system
  state; the rest enters the hash as an opaque input of each pass.
- Overlapping passes, except for collections: in `System` every pass is one step, and `Overlap` splits collections only. A
  session pass that reads before and writes after another controller's step is not modelled; it could place a client on a
  pod that was deleted since it listed it, whose name the next pass would then bring back. Nor are two passes of one
  controller at a time, which the controllers do not do. In `Overlap` a changed registration is recognised by its content.
- In `System` a client-pod pass may run with an unknown address also where the session has templates of its own, which
  `SessionController.Reconcile` rules out; the report on the session's own pods is no part of the system state.
- The session lives in namespace `default`: `SpawnPod` puts every pod there (utils/pods.go:47), while the listings and the
  garbage collector go by the session's namespace.
- In `System` no service name is taken by somebody else; `Network.NetworkApi` covers that case on its own.
- Service names have at least four characters and no slash and every ingress path a slash, as `ingress.go:59` and
  `ingress.go:85` assume: shorter names and other paths would panic there.
- At the start of a run the ingress holds only the session manager's rules, and only the controllers create pods,
  services, registrations and other rules afterwards; pods and services may vanish at any time.
- Routing assumes addresses without a slash, the condition under which a rewritten path is recoverable.
- `PodUpdateFunc`, event mapping, and the messages and transition times of the Ready condition: one-line bookkeeping.
- The session manager's HTTP handlers: only their effect on the session's clients appears, as environment steps.
- A reconcile of a session is two consecutive steps, session pods and client pods, so any interleaving between them is
  covered as well.
