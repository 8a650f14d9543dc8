/** The client-pod pass of the session controller: what one pass does to the status, the registrations and the pods,
    whether it completes or stops at a failed write. */
module ClientPods {
  import opened Names
  import opened Model
  import opened SessionStatus
  import opened PodIndex
  import opened Placement
  import opened Allocator
  import opened RegistrationManager
  import opened ReadinessReport
  import opened Cluster
  import opened Strings

  // ---- specification ----

  /** What a status must satisfy for a pass over it; every pass leaves it so. */
  ghost predicate StatusFit(cfg: Config, used: set<string>, status: Statuses) {
    && AllOnePerTemplate(cfg, status)
    && WithinCapacity(cfg, status)
    && StatusRewritable(status)
    && Allocated(status) <= used
  }

  /** Everything of the API server a client-pod pass touches. */
  datatype View = View(status: Statuses, annotation: Option<Digest>, pods: Pods, registrations: Registrations)

  /** What a pass is given besides the stored objects; `others` is the rest of the status, as the pass leaves it. */
  datatype Inputs = Inputs(clients: map<string, bool>, now: int, ip: Option<string>, others: string)

  /** How far a pass got: the placement it chose, the registrations it opened and closed, whether it skipped the status
      because its hash was the annotated one, wrote it, annotated its hash, and which pods it created. */
  datatype Effects = Effects(alloc: Statuses, idle: set<string>, busy: set<string>, skipped: bool, wrote: bool,
                             annotated: bool, created: set<string>)

  function ListedPods(cfg: Config, pods: Pods): Pods {
    Listing(pods, cfg.session, ClientPod)
  }

  function SpawnedPod(cfg: Config, pod: string): ClusterPod {
    ClusterPod(cfg.session, ClientPod,
               if TemplateOf(pod) in Templates(cfg) then Templates(cfg)[TemplateOf(pod)].containers else [], Missing)
  }

  function WithSpawned(cfg: Config, pods: Pods, created: set<string>): Pods {
    map p | p in pods.Keys + created :: if p in pods then pods[p] else SpawnedPod(cfg, p)
  }

  ghost predicate PlacesNewcomers(cfg: Config, used: set<string>, given: Inputs, before: View, alloc: Statuses)
    requires ValidConfig(cfg)
  {
    Placed(cfg, Carried(given.now, cfg.timeoutSeconds, given.clients, before.status),
           Newcomers(given.now, cfg.timeoutSeconds, given.clients, before.status),
           ListedPods(cfg, before.pods), used, alloc)
  }

  ghost function PodsMissing(cfg: Config, before: View, alloc: Statuses): set<string> {
    Allocated(alloc) - ListedPods(cfg, before.pods).Keys
  }

  /** The status a pass with this placement computes. */
  ghost function Computed(cfg: Config, given: Inputs, before: View, alloc: Statuses): Statuses
    requires StatusRewritable(alloc)
  {
    Reported(ListedPods(cfg, before.pods), given.ip, alloc)
  }

  /** The gate before the status write, and the two writes behind it; pods only come after. */
  ghost predicate StatusWritten(computed: Statuses, others: string, before: View, effects: Effects, after: View) {
    && (effects.skipped <==> before.annotation == Some(Digest(computed, others)))
    && (effects.skipped ==> !effects.wrote) && (effects.annotated ==> effects.wrote)
    && (effects.created != {} ==> effects.skipped || effects.annotated)
    && after.status == (if effects.wrote then computed else before.status)
    && after.annotation == (if effects.annotated then Some(Digest(computed, others)) else before.annotation)
  }

  /** Everything before the status write: a placement, and the registrations it calls for as far as they went. */
  ghost predicate Prepared(cfg: Config, used: set<string>, given: Inputs, before: View, effects: Effects,
                           registrations: Registrations)
    requires ValidConfig(cfg)
  {
    && PlacesNewcomers(cfg, used, given, before, effects.alloc)
    && StatusRewritable(effects.alloc)
    && effects.idle <= IdlePods(effects.alloc, ListedPods(cfg, before.pods))
    && effects.busy <= BusyPods(effects.alloc)
    && registrations == RegistrationsAfter(before.registrations, effects.idle, effects.busy, cfg.session, given.now)
  }

  /** A pass with these effects leads from `before` to `after`. Registrations come first, then the status, then pods. */
  ghost predicate Pass(cfg: Config, used: set<string>, given: Inputs, before: View, effects: Effects, after: View)
    requires ValidConfig(cfg)
  {
    && Prepared(cfg, used, given, before, effects, after.registrations)
    && StatusWritten(Computed(cfg, given, before, effects.alloc), given.others, before, effects, after)
    && effects.created <= PodsMissing(cfg, before, effects.alloc)
    && after.pods == WithSpawned(cfg, before.pods, effects.created)
  }

  /** Every write of the pass went through. The status is among them unless its hash was the annotated one. */
  ghost predicate Completed(cfg: Config, before: View, effects: Effects) {
    && effects.idle == IdlePods(effects.alloc, ListedPods(cfg, before.pods))
    && effects.busy == BusyPods(effects.alloc)
    && (effects.skipped || effects.annotated)
    && effects.created == PodsMissing(cfg, before, effects.alloc)
  }

  // ---- the carried status is fit again ----

  lemma CarriedIsFit(cfg: Config, used: set<string>, status: Statuses, now: int, clients: map<string, bool>)
    requires StatusFit(cfg, used, status)
    ensures StatusFit(cfg, used, Carried(now, cfg.timeoutSeconds, clients, status))
  {
    var carried := Carried(now, cfg.timeoutSeconds, clients, status);
    assert forall c :: c in carried ==> carried[c].pods == status[c].pods;
    forall p | p in Allocated(carried) ensures p in Allocated(status) {
      var c :| c in carried && p in carried[c].pods;
      assert p in status[c].pods;
    }
    forall p | p in Allocated(carried) && TemplateOf(p) in Templates(cfg)
      ensures |Users(carried, p)| <= Templates(cfg)[TemplateOf(p)].maxClients
    {
      SubsetSize(Users(carried, p), Users(status, p));
    }
  }

  lemma PortPathsRewritable(pod: string, ports: seq<Port>)
    ensures PathsRewritable(Paths(pod, ports))
  {}

  /** Fresh entries have rewritable paths, so a placement of newcomers on a fit status has. */
  lemma PlacedIsRewritable(cfg: Config, carried: Statuses, newcomers: set<string>, listed: Pods, used: set<string>,
                           alloc: Statuses)
    requires ValidConfig(cfg) && Placed(cfg, carried, newcomers, listed, used, alloc) && StatusRewritable(carried)
    ensures StatusRewritable(alloc)
  {
    hide FairlySourced, WithinCapacity, FewestPods, OnePerTemplate, PathsRewritable;
    forall c, p | c in alloc && p in alloc[c].pods ensures PathsRewritable(alloc[c].pods[p].paths) {
      if c in newcomers {
        assert FreshEntry(cfg, alloc[c]);
        TemplateKnown(cfg, alloc[c], p);
        PortPathsRewritable(p, AllPorts(Templates(cfg)[TemplateOf(p)].containers));
      }
    }
  }

  lemma TemplateKnown(cfg: Config, entry: ClientStatus, pod: string)
    requires OnePerTemplate(cfg, entry.pods) && pod in entry.pods
    ensures TemplateOf(pod) in Templates(cfg) && WellNamed(cfg.session, pod)
  {}

  lemma NobodyWithoutPods(cfg: Config, status: Statuses)
    requires AllOnePerTemplate(cfg, status) && cfg.clientTemplates != []
    ensures forall c :: c in status ==> status[c].pods != map[]
  {
    var last := cfg.clientTemplates[|cfg.clientTemplates| - 1].name;
    assert last in Templates(cfg);
    forall c | c in status ensures status[c].pods != map[] {
      assert OnePerTemplate(cfg, status[c].pods);
    }
  }

  // ---- rebuilding the index ----

  /** The clients of `live` that are in the spec and not among `todo`. */
  ghost function KeptSoFar(live: Statuses, clients: map<string, bool>, todo: set<string>): Statuses {
    map c | c in live && c in clients && c !in todo :: live[c]
  }

  /** `live` without the departed clients that are no longer among `todo`. */
  ghost function Remaining(live: Statuses, clients: map<string, bool>, todo: set<string>): Statuses {
    map c | c in live && (c in todo || c in clients) :: live[c]
  }

  lemma OneMoreKept(cfg: Config, live: Statuses, clients: map<string, bool>, todo: set<string>, client: string)
    requires client in todo && client in live && AllOnePerTemplate(cfg, live)
    ensures var soFar, remaining := KeptSoFar(live, clients, todo), Remaining(live, clients, todo);
            && client in remaining && remaining[client] == live[client]
            && Remaining(live, clients, todo - {client})
               == (if client in clients then remaining else remaining - {client})
            && KeptSoFar(live, clients, todo - {client})
               == (if client in clients then soFar[client := live[client]] else soFar)
            && client !in soFar
    ensures client in clients ==>
              (Connected(live[client]) <==> client in ConnectedClients(KeptSoFar(live, clients, {})))
    ensures OnePerTemplate(cfg, live[client].pods)
  {
    hide OnePerTemplate;
  }

  /** Drops the clients that left the session and indexes the pods of the others. */
  method BuildIndex(session: Session, allocation: Allocation, ghost listed: Pods)
    requires AllOnePerTemplate(session.cfg, session.status)
    requires IndexAgrees(session.cfg, {}, {}, allocation.index) && ReuseAgrees(listed, {}, allocation.reuse)
    modifies session, allocation
    ensures session.status == map c | c in old(session.status) && c in session.clients :: old(session.status)[c]
    ensures IndexAgrees(session.cfg, Edges(session.status), ConnectedClients(session.status), allocation.index)
    ensures ReuseAgrees(listed, Allocated(session.status), allocation.reuse)
  {
    hide *;
    var cfg, clients := session.cfg, session.clients;
    ghost var live := session.status;
    ghost var online := ConnectedClients(KeptSoFar(live, clients, {}));
    var todo := session.status.Keys;
    IndexOfNobody(cfg, listed, online, allocation.index, allocation.reuse, live, clients);
    while todo != {}
      invariant todo <= live.Keys
      invariant session.status == Remaining(live, clients, todo)
      invariant IndexAgrees(cfg, Edges(KeptSoFar(live, clients, todo)), online, allocation.index)
      invariant ReuseAgrees(listed, Allocated(KeptSoFar(live, clients, todo)), allocation.reuse)
    {
      var client :| client in todo;
      ghost var soFar := KeptSoFar(live, clients, todo);
      OneMoreKept(cfg, live, clients, todo, client);
      if client !in clients {
        session.status := session.status - {client};
      } else {
        var entry := session.status[client];
        var connected := DEFAULT_TIME == entry.lastSeen;
        ConnectedMeans(entry);
        ReadyToBuild(cfg, soFar, client, entry);
        IndexAgreesIff(cfg, Edges(soFar), online, allocation.index);
        allocation.BuildAllocationMap(cfg, client, entry, connected, Edges(soFar), online, listed);
        OneMoreClient(soFar, client, entry);
        PairsOfTemplates(cfg, Edges(soFar), client, entry);
        IndexAgreesIff(cfg, Edges(soFar) + PairsOf(client, entry.pods.Keys), online, allocation.index);
      }
      todo := todo - {client};
    }
    AllKept(live, clients);
  }

  lemma ConnectedMeans(entry: ClientStatus)
    ensures Connected(entry) <==> entry.lastSeen == DEFAULT_TIME
  {}

  lemma AllKept(live: Statuses, clients: map<string, bool>)
    ensures KeptSoFar(live, clients, {}) == Remaining(live, clients, {}) == map c | c in live && c in clients :: live[c]
  {}

  lemma IndexOfNobody(cfg: Config, listed: Pods, online: set<string>, index: Index, reuse: ReuseMap, live: Statuses,
                      clients: map<string, bool>)
    requires IndexAgrees(cfg, {}, {}, index) && ReuseAgrees(listed, {}, reuse)
    ensures var nobody := KeptSoFar(live, clients, live.Keys);
            IndexAgrees(cfg, Edges(nobody), online, index) && ReuseAgrees(listed, Allocated(nobody), reuse)
    ensures Remaining(live, clients, live.Keys) == live
  {
    assert Edges(map[]) == {} && Allocated(map[]) == {};
    assert KeptSoFar(live, clients, live.Keys) == map[];
    forall t | t in index ensures Agrees({}, online, t, index[t].pods) {
      UnrelatedAgrees({}, {}, t, index[t].pods, {}, online);
    }
  }

  lemma ReadyToBuild(cfg: Config, soFar: Statuses, client: string, entry: ClientStatus)
    requires client !in soFar && OnePerTemplate(cfg, entry.pods)
    ensures PodNames(Edges(soFar)) == Allocated(soFar)
    ensures forall e :: e in Edges(soFar) ==> e.0 != client
    ensures forall p :: p in entry.pods ==> |Split(p, '-')| > 2 && TemplateOf(p) in Templates(cfg)
  {
    AllocatedIsPodNames(soFar);
  }

  lemma PairsOfTemplates(cfg: Config, edges: set<(string, string)>, client: string, entry: ClientStatus)
    requires OnePerTemplate(cfg, entry.pods)
    requires forall e :: e in edges ==> TemplateOf(e.1) in Templates(cfg)
    ensures forall e :: e in edges + PairsOf(client, entry.pods.Keys) ==> TemplateOf(e.1) in Templates(cfg)
  {
    hide TemplateOf, Templates, WellNamed;
  }

  // ---- the pass ----

  /** The pods of this session are listed under well-formed names, and nothing else has such a name. */
  ghost predicate PodsFit(cfg: Config, used: set<string>, pods: Pods) {
    && ListedFit(cfg, ListedPods(cfg, pods), used)
    && forall p :: p in pods && WellNamed(cfg.session, p) ==> p in ListedPods(cfg, pods)
  }

  lemma PodsFitMeans(cfg: Config, used: set<string>, pods: Pods)
    requires PodsFit(cfg, used, pods)
    ensures ListedFit(cfg, ListedPods(cfg, pods), used)
    ensures forall p :: p in ListedPods(cfg, pods) ==> WellNamed(cfg.session, p) && |Split(p, '-')| > 2
  {}

  /** A placement on a fit status is one pod per template, rewritable, and made of well-formed names. */
  lemma PlacedIsFit(cfg: Config, used: set<string>, given: Inputs, before: View, alloc: Statuses)
    requires ValidConfig(cfg) && StatusFit(cfg, used, before.status) && PodsFit(cfg, used, before.pods)
    requires Placed(cfg, Carried(given.now, cfg.timeoutSeconds, given.clients, before.status),
                    Newcomers(given.now, cfg.timeoutSeconds, given.clients, before.status),
                    ListedPods(cfg, before.pods), used, alloc)
    ensures PlacesNewcomers(cfg, used, given, before, alloc)
    ensures AllOnePerTemplate(cfg, alloc) && StatusRewritable(alloc) && WithinCapacity(cfg, alloc)
    ensures forall n :: n in Allocated(alloc) + ListedPods(cfg, before.pods).Keys ==> WellNamed(cfg.session, n)
  {
    var carried := Carried(given.now, cfg.timeoutSeconds, given.clients, before.status);
    var newcomers := Newcomers(given.now, cfg.timeoutSeconds, given.clients, before.status);
    var listed := ListedPods(cfg, before.pods);
    hide AllOnePerTemplate, StatusRewritable, WithinCapacity, Joined, FairlySourced, FewestPods, WellNamed;
    PodsFitMeans(cfg, used, before.pods);
    CarriedIsFit(cfg, used, before.status, given.now, given.clients);
    JoinedIsOnePerTemplate(cfg, carried, newcomers, alloc);
    PlacedIsRewritable(cfg, carried, newcomers, listed, used, alloc);
    NamesWellFormed(cfg, alloc);
  }

  lemma NamesWellFormed(cfg: Config, status: Statuses)
    requires AllOnePerTemplate(cfg, status)
    ensures forall p :: p in Allocated(status) ==> WellNamed(cfg.session, p) && TemplateOf(p) in Templates(cfg)
  {
    forall p | p in Allocated(status) ensures WellNamed(cfg.session, p) && TemplateOf(p) in Templates(cfg) {
      var c :| c in status && p in status[c].pods;
      assert OnePerTemplate(cfg, status[c].pods);
    }
  }

  lemma RefreshedIsOnePerTemplate(cfg: Config, now: int, clients: map<string, bool>, status: Statuses)
    requires AllOnePerTemplate(cfg, status)
    ensures AllOnePerTemplate(cfg, Refreshed(now, clients, Unexpired(now, cfg.timeoutSeconds, status)))
  {
    hide OnePerTemplate;
  }

  lemma ListedHaveTemplates(cfg: Config, listed: Pods, used: set<string>)
    requires ListedFit(cfg, listed, used)
    ensures forall p :: p in listed ==> |Split(p, '-')| > 2
  {}

  lemma NewcomersAre(now: int, cfg: Config, clients: map<string, bool>, status: Statuses, newClients: seq<string>)
    requires forall c :: c in newClients <==> c in Arrivals(clients, Unexpired(now, cfg.timeoutSeconds, status))
    ensures Elements(newClients) == Newcomers(now, cfg.timeoutSeconds, clients, status)
    ensures forall c :: c in newClients ==> c !in Carried(now, cfg.timeoutSeconds, clients, status)
  {
    StepsCompose(now, cfg.timeoutSeconds, clients, status);
  }

  lemma FitMeans(cfg: Config, used: set<string>, status: Statuses)
    requires StatusFit(cfg, used, status)
    ensures AllOnePerTemplate(cfg, status) && WithinCapacity(cfg, status) && StatusRewritable(status)
    ensures Allocated(status) <= used
    ensures forall e :: e in Edges(status) ==> WellNamed(cfg.session, e.1)
  {
    forall e | e in Edges(status) ensures WellNamed(cfg.session, e.1) {
      assert OnePerTemplate(cfg, status[e.0].pods);
    }
  }

  /** Expires, refreshes, indexes and places. */
  method PlaceClients(session: Session, clientPods: Pods, now: int, mint: (string, string) -> string,
                      ghost used: set<string>)
    returns (allocation: Allocation)
    requires ValidConfig(session.cfg) && StatusFit(session.cfg, used, session.status)
    requires ListedFit(session.cfg, clientPods, used)
    requires FreshMint(session.cfg, mint,
                       Pairings(Newcomers(now, session.cfg.timeoutSeconds, session.clients, session.status),
                                Templates(session.cfg).Keys), used)
    modifies session
    ensures var cfg := session.cfg;
            Placed(cfg, Carried(now, cfg.timeoutSeconds, session.clients, old(session.status)),
                   Newcomers(now, cfg.timeoutSeconds, session.clients, old(session.status)),
                   clientPods, used, session.status)
    ensures IndexAgrees(session.cfg, Edges(session.status), ConnectedClients(session.status), allocation.index)
    ensures ReuseAgrees(clientPods, Allocated(session.status), allocation.reuse)
  {
    hide *;
    var cfg, clients := session.cfg, session.clients;
    ghost var before := session.status;
    ghost var carried := Carried(now, cfg.timeoutSeconds, clients, before);
    FitMeans(cfg, used, before);
    RefreshedIsOnePerTemplate(cfg, now, clients, before);
    StepsCompose(now, cfg.timeoutSeconds, clients, before);
    CarriedIsFit(cfg, used, before, now, clients);
    FitMeans(cfg, used, carried);
    ListedHaveTemplates(cfg, clientPods, used);
    session.CleanExpiredClients(now);
    var newClients := session.HandleClientChanges(now);
    NewcomersAre(now, cfg, clients, before, newClients);
    var index := InitAllocationMap(cfg);
    var reuse := TemplatePodMapping(clientPods);
    allocation := new Allocation(index, reuse);
    BuildIndex(session, allocation, clientPods);
    assert session.status == carried;
    if newClients != [] {
      allocation.SortAllocationMap(cfg, Edges(carried), ConnectedClients(carried));
      allocation.AllocateClients(session, newClients, mint, clientPods, used);
    } else {
      NobodyToPlace(cfg, carried, clientPods, used);
      NoElements(newClients);
    }
  }

  lemma NoElements(xs: seq<string>)
    ensures xs == [] ==> Elements(xs) == {}
  {}

  /** Expires, refreshes, indexes, places, registers and reports: everything up to the status write. */
  method ReconcileClientPods(api: ApiServer, session: Session, registered: set<string>, now: int, ip: Option<string>,
                             mint: (string, string) -> string, ghost others: string, ghost used: set<string>)
    returns (spawn: seq<PodToSpawn>, ghost effects: Effects, ghost clean: bool)
    requires ValidConfig(session.cfg) && session.cfg.clientTemplates != []
    requires StatusFit(session.cfg, used, session.status) && PodsFit(session.cfg, used, api.pods)
    requires forall n :: WellNamed(session.cfg.session, n) ==> (n in registered <==> n in api.registrations)
    requires FreshMint(session.cfg, mint,
                       Pairings(Newcomers(now, session.cfg.timeoutSeconds, session.clients, session.status),
                                Templates(session.cfg).Keys), used)
    modifies session, api`registrations, api`gcNamespace
    ensures var cfg := session.cfg;
            var before := old(View(session.status, api.annotation, api.pods, api.registrations));
            var given := Inputs(session.clients, now, ip, others);
            && Prepared(cfg, used, given, before, effects, api.registrations) && StatusRewritable(effects.alloc)
            && (clean ==> effects.idle == IdlePods(effects.alloc, ListedPods(cfg, before.pods)))
            && (clean ==> effects.busy == BusyPods(effects.alloc))
            && session.status == Computed(cfg, given, before, effects.alloc)
            && SpawnsMissing(cfg, ListedPods(cfg, api.pods), Allocated(effects.alloc), spawn)
  {
    hide *;
    var cfg := session.cfg;
    ghost var before := View(session.status, api.annotation, api.pods, api.registrations);
    ghost var given := Inputs(session.clients, now, ip, others);
    var clientPods := ListedPods(cfg, api.pods);
    PodsFitMeans(cfg, used, api.pods);
    var allocation := PlaceClients(session, clientPods, now, mint, used);
    ghost var alloc := session.status;
    PlacedIsFit(cfg, used, given, before, alloc);
    NobodyWithoutPods(cfg, alloc);
    var grouped := TemplatePodMapping(clientPods);
    var ok;
    ghost var idle, busy;
    ok, idle, busy := ManageGCRegistrations(api, cfg, allocation.index, allocation.reuse, registered, now, alloc,
                                            clientPods);
    spawn := ReconcilePods(session, allocation.index, grouped, ip, clientPods, ConnectedClients(alloc));
    effects, clean := Effects(alloc, idle, busy, false, false, false, {}), ok;
    IsPrepared(cfg, used, given, before, effects, api.registrations);
  }

  lemma IsPrepared(cfg: Config, used: set<string>, given: Inputs, before: View, effects: Effects,
                   registrations: Registrations)
    requires ValidConfig(cfg) && PlacesNewcomers(cfg, used, given, before, effects.alloc)
    requires StatusRewritable(effects.alloc) && effects.busy <= BusyPods(effects.alloc)
    requires effects.idle <= IdlePods(effects.alloc, ListedPods(cfg, before.pods))
    requires registrations
             == RegistrationsAfter(before.registrations, effects.idle, effects.busy, cfg.session, given.now)
    ensures Prepared(cfg, used, given, before, effects, registrations)
    ensures Computed(cfg, given, before, effects.alloc) == Reported(ListedPods(cfg, before.pods), given.ip, effects.alloc)
  {
    hide PlacesNewcomers, StatusRewritable, IdlePods, BusyPods, RegistrationsAfter;
  }

  /** Creates the pods in turn, stopping at the first failure. */
  method SpawnPods(api: ApiServer, cfg: Config, spawn: seq<PodToSpawn>, ghost missing: set<string>)
    returns (ok: bool, ghost created: set<string>)
    requires forall p :: p in SpawnNames(spawn) <==> p in missing
    requires forall i :: 0 <= i < |spawn| ==>
                           && TemplateOf(spawn[i].name) in Templates(cfg)
                           && spawn[i].containers == Templates(cfg)[TemplateOf(spawn[i].name)].containers
    requires forall p :: p in missing ==> p !in api.pods
    requires forall i, j :: 0 <= i < j < |spawn| ==> spawn[i].name != spawn[j].name
    modifies api`pods
    ensures created <= missing && (ok ==> created == missing)
    ensures api.pods == WithSpawned(cfg, old(api.pods), created)
  {
    hide *;
    ok, created := true, {};
    ghost var before := api.pods;
    NothingSpawnedYet(cfg, before);
    for i := 0 to |spawn|
      invariant created == Elements(SpawnNames(spawn[..i]))
      invariant api.pods == WithSpawned(cfg, before, created)
    {
      var pod := spawn[i];
      OneMoreSpawned(cfg, before, spawn, i, missing);
      ok := api.CreatePod(pod.name, ClusterPod(cfg.session, ClientPod, pod.containers, Missing));
      if !ok {
        return;
      }
      created := created + {pod.name};
    }
    AllSpawned(spawn, missing);
  }

  lemma NothingSpawnedYet(cfg: Config, pods: Pods)
    ensures WithSpawned(cfg, pods, {}) == pods
    ensures forall spawn: seq<PodToSpawn> :: Elements(SpawnNames(spawn[..0])) == {}
  {}

  lemma OneMoreSpawned(cfg: Config, before: Pods, spawn: seq<PodToSpawn>, i: nat, missing: set<string>)
    requires i < |spawn| && (forall p :: p in SpawnNames(spawn) <==> p in missing)
    requires forall p :: p in missing ==> p !in before
    requires forall j, k :: 0 <= j < k < |spawn| ==> spawn[j].name != spawn[k].name
    requires TemplateOf(spawn[i].name) in Templates(cfg)
    requires spawn[i].containers == Templates(cfg)[TemplateOf(spawn[i].name)].containers
    ensures var created, pod := Elements(SpawnNames(spawn[..i])), spawn[i].name;
            && Elements(SpawnNames(spawn[..i + 1])) == created + {pod}
            && created <= missing
            && WithSpawned(cfg, before, created + {pod})
               == WithSpawned(cfg, before, created)[
                    pod := ClusterPod(cfg.session, ClientPod, spawn[i].containers, Missing)]
            && pod !in WithSpawned(cfg, before, created)
  {
    hide TemplateOf, Templates;
    assert SpawnNames(spawn[..i + 1]) == SpawnNames(spawn[..i]) + [spawn[i].name];
    forall j | 0 <= j < |spawn| ensures spawn[j].name in missing {
      assert SpawnNames(spawn)[j] == spawn[j].name;
    }
    forall p | p in SpawnNames(spawn[..i]) ensures p in missing && p != spawn[i].name {
      var j :| 0 <= j < i && SpawnNames(spawn[..i])[j] == p;
    }
    assert SpawnedPod(cfg, spawn[i].name) == ClusterPod(cfg.session, ClientPod, spawn[i].containers, Missing);
  }

  lemma AllSpawned(spawn: seq<PodToSpawn>, missing: set<string>)
    requires forall p :: p in SpawnNames(spawn) <==> p in missing
    ensures Elements(SpawnNames(spawn[..|spawn|])) == missing
  {
    assert spawn[..|spawn|] == spawn;
  }

  /** Reconciles the client pods of a session: one pass, from the listing to the spawns. It succeeds when the status was
      written and annotated, or left because its hash was the annotated one, and every pod was created; a failed
      registration write neither stops it nor shows in its result, so `clean` says whether there was one. */
  method Reconcile(api: ApiServer, cfg: Config, clients: map<string, bool>, registered: set<string>, now: int,
                   ip: Option<string>, others: string, mint: (string, string) -> string, ghost used: set<string>)
    returns (ok: bool, ghost effects: Effects, ghost clean: bool)
    requires ValidConfig(cfg) && cfg.clientTemplates != []
    requires StatusFit(cfg, used, api.status) && PodsFit(cfg, used, api.pods)
    requires forall n :: WellNamed(cfg.session, n) ==> (n in registered <==> n in api.registrations)
    requires FreshMint(cfg, mint, Pairings(Newcomers(now, cfg.timeoutSeconds, clients, api.status),
                                           Templates(cfg).Keys), used)
    modifies api
    ensures Pass(cfg, used, Inputs(clients, now, ip, others),
                 old(View(api.status, api.annotation, api.pods, api.registrations)), effects,
                 View(api.status, api.annotation, api.pods, api.registrations))
    ensures ok && clean ==>
              Completed(cfg, old(View(api.status, api.annotation, api.pods, api.registrations)), effects)
  {
    hide *;
    ghost var before := View(api.status, api.annotation, api.pods, api.registrations);
    ghost var given := Inputs(clients, now, ip, others);
    var session := new Session(cfg, clients, api.status);
    var spawn;
    ghost var prepared;
    spawn, prepared, clean := ReconcileClientPods(api, session, registered, now, ip, mint, others, used);
    ok, effects := WriteAndSpawn(api, cfg, session.status, others, spawn, used, given, before, prepared);
    CompletedIs(cfg, before, effects);
  }

  /** The second half of a pass: the status if its hash is new, and then the pods. */
  method WriteAndSpawn(api: ApiServer, cfg: Config, computed: Statuses, others: string, spawn: seq<PodToSpawn>,
                       ghost used: set<string>, ghost given: Inputs, ghost before: View, ghost prepared: Effects)
    returns (ok: bool, ghost effects: Effects)
    requires ValidConfig(cfg) && StatusFit(cfg, used, before.status) && PodsFit(cfg, used, before.pods)
    requires Prepared(cfg, used, given, before, prepared, api.registrations) && StatusRewritable(prepared.alloc)
    requires computed == Computed(cfg, given, before, prepared.alloc) && others == given.others
    requires SpawnsMissing(cfg, ListedPods(cfg, before.pods), Allocated(prepared.alloc), spawn)
    requires api.status == before.status && api.annotation == before.annotation && api.pods == before.pods
    modifies api`status, api`annotation, api`pods
    ensures Pass(cfg, used, given, before, effects, View(api.status, api.annotation, api.pods, api.registrations))
    ensures effects.idle == prepared.idle && effects.busy == prepared.busy && effects.alloc == prepared.alloc
    ensures ok ==> (effects.skipped || effects.annotated) && effects.created == PodsMissing(cfg, before, prepared.alloc)
  {
    hide *;
    NothingSpawnedYet(cfg, before.pods);
    ghost var skipped, wrote, annotated;
    ok, skipped, wrote, annotated := WriteStatus(api, computed, others);
    effects := prepared.(skipped := skipped, wrote := wrote, annotated := annotated, created := {});
    if ok {
      SpawnsWhatIsMissing(cfg, used, given, before, prepared, api.registrations, spawn);
      ghost var created;
      ok, created := SpawnPods(api, cfg, spawn, PodsMissing(cfg, before, prepared.alloc));
      effects := effects.(created := created);
    }
    PassIs(cfg, used, given, before, prepared, effects, View(api.status, api.annotation, api.pods, api.registrations));
  }

  /** Writes the status and then its hash, unless the hash is the annotated one. */
  method WriteStatus(api: ApiServer, computed: Statuses, others: string)
    returns (ok: bool, ghost skipped: bool, ghost wrote: bool, ghost annotated: bool)
    modifies api`status, api`annotation
    ensures skipped <==> old(api.annotation) == Some(Digest(computed, others))
    ensures (skipped ==> !wrote) && (annotated ==> wrote) && (ok <==> skipped || annotated)
    ensures api.status == if wrote then computed else old(api.status)
    ensures api.annotation == if annotated then Some(Digest(computed, others)) else old(api.annotation)
  {
    var digest := Digest(computed, others);
    ok, skipped, wrote, annotated := true, api.annotation == Some(digest), false, false;
    if api.annotation != Some(digest) {
      ok := api.UpdateStatus(computed);
      wrote := ok;
      if !ok {
        return;
      }
      ok := api.Annotate(digest);
      annotated := ok;
    }
  }

  lemma PassIs(cfg: Config, used: set<string>, given: Inputs, before: View, prepared: Effects, effects: Effects,
               after: View)
    requires ValidConfig(cfg) && Prepared(cfg, used, given, before, prepared, after.registrations)
    requires StatusRewritable(effects.alloc)
    requires effects.alloc == prepared.alloc && effects.idle == prepared.idle && effects.busy == prepared.busy
    requires var computed := Computed(cfg, given, before, effects.alloc);
             && (effects.skipped <==> before.annotation == Some(Digest(computed, given.others)))
             && (effects.skipped ==> !effects.wrote) && (effects.annotated ==> effects.wrote)
             && after.status == (if effects.wrote then computed else before.status)
             && after.annotation
                == (if effects.annotated then Some(Digest(computed, given.others)) else before.annotation)
    requires effects.created != {} ==> effects.skipped || effects.annotated
    requires effects.created <= PodsMissing(cfg, before, effects.alloc)
    requires after.pods == WithSpawned(cfg, before.pods, effects.created)
    ensures Pass(cfg, used, given, before, effects, after)
  {
    hide PlacesNewcomers, StatusRewritable, IdlePods, BusyPods, RegistrationsAfter, Computed, PodsMissing, WithSpawned;
  }

  lemma CompletedIs(cfg: Config, before: View, effects: Effects)
    ensures Completed(cfg, before, effects) <==>
            && effects.idle == IdlePods(effects.alloc, ListedPods(cfg, before.pods))
            && effects.busy == BusyPods(effects.alloc)
            && (effects.skipped || effects.annotated)
            && effects.created == PodsMissing(cfg, before, effects.alloc)
  {
    hide IdlePods, BusyPods, PodsMissing, ListedPods;
  }

  lemma SpawnsWhatIsMissing(cfg: Config, used: set<string>, given: Inputs, before: View, effects: Effects,
                            registrations: Registrations, spawn: seq<PodToSpawn>)
    requires ValidConfig(cfg) && StatusFit(cfg, used, before.status) && PodsFit(cfg, used, before.pods)
    requires Prepared(cfg, used, given, before, effects, registrations)
    requires SpawnsMissing(cfg, ListedPods(cfg, before.pods), Allocated(effects.alloc), spawn)
    ensures forall p :: p in SpawnNames(spawn) <==> p in PodsMissing(cfg, before, effects.alloc)
    ensures forall i :: 0 <= i < |spawn| ==>
                          && TemplateOf(spawn[i].name) in Templates(cfg)
                          && spawn[i].containers == Templates(cfg)[TemplateOf(spawn[i].name)].containers
    ensures forall p :: p in PodsMissing(cfg, before, effects.alloc) ==> p !in before.pods
    ensures forall i, j :: 0 <= i < j < |spawn| ==> spawn[i].name != spawn[j].name
  {
    hide StatusFit, Placed, SpawnNames, WellNamed, Templates, TemplateOf, Allocated, IdlePods, BusyPods,
         RegistrationsAfter, StatusRewritable;
    PlacedIsFit(cfg, used, given, before, effects.alloc);
  }
}
