/** What holds in every state a run reaches, whatever the interleaving and wherever passes stopped. */
module RunLaws {
  import opened Names
  import opened Model
  import opened ModelLaws
  import opened SessionStatus
  import opened Placement
  import opened RegistrationManager
  import opened ReadinessReport
  import opened ClientPods
  import opened SessionPods
  import opened Network
  import opened System
  import opened Steps
  import opened SystemInvariant
  import opened Reclamation
  import opened Resurrection

  /** In every reachable state the preconditions of all the passes hold, so each of the methods can run there. */
  lemma PassesCanRun(cfg: Config, states: seq<State>, actions: seq<Action>, i: nat)
    requires ValidConfig(cfg) && Run(cfg, states, actions) && i < |states|
    ensures var s := states[i];
            && StatusFit(cfg, s.used, s.status) && PodsFit(cfg, s.used, s.pods)
            && (forall n :: n in s.registrations ==> s.registrations[n].session == cfg.session)
            && FoundPods(cfg, s.pods).Keys <= TemplatePodNames(cfg)
            && (forall p :: p in TemplatePodNames(cfg) && p in s.pods ==> p in FoundPods(cfg, s.pods))
            && RulesFit(s.rules) && ServicesFit(s.services) && forall p :: p in s.pods ==> '/' !in p
  {
    hide *;
    RunKeepsInv(cfg, states, actions, i);
    InvMeans(cfg, states[i]);
    NamesFit(cfg, states[i]);
    KnownPodsFit(cfg, states[i].used, states[i].pods);
  }

  lemma NamesFit(cfg: Config, s: State)
    requires RegistrationsFit(cfg, s.registrations) && PodsKnown(cfg, s.used, s.pods) && ServicesKnown(cfg, s.services)
    ensures forall n :: n in s.registrations ==> s.registrations[n].session == cfg.session
    ensures ServicesFit(s.services) && forall p :: p in s.pods ==> '/' !in p
  {
    hide ServicesFit, ContainersOf, WellNamed, TemplatePodNames;
  }

  /** Each client of the status holds one pod name for each template and no others, names that parse back to their
      template and will not be drawn again. */
  lemma OnePodPerTemplate(cfg: Config, states: seq<State>, actions: seq<Action>, i: nat, client: string)
    requires ValidConfig(cfg) && Run(cfg, states, actions) && i < |states| && client in states[i].status
    ensures OnePerTemplate(cfg, states[i].status[client].pods)
    ensures states[i].status[client].pods.Keys <= states[i].used
  {
    RunKeepsInv(cfg, states, actions, i);
    StatusIsFit(cfg, states[i]);
    hide Run, OnePerTemplate, Inv;
    forall p | p in states[i].status[client].pods ensures p in states[i].used {
      assert p in Allocated(states[i].status);
    }
  }

  /** The same by the list of templates: each client of the status has exactly one pod for each listed template, and no pod
      of any other. */
  lemma OnePodPerListedTemplate(cfg: Config, states: seq<State>, actions: seq<Action>, i: nat, client: string, k: nat)
    requires ValidConfig(cfg) && Run(cfg, states, actions) && i < |states| && client in states[i].status
    requires k < |cfg.clientTemplates|
    ensures |set p | p in states[i].status[client].pods && TemplateOf(p) == cfg.clientTemplates[k].name| == 1
    ensures forall p :: p in states[i].status[client].pods ==>
                          exists m :: 0 <= m < |cfg.clientTemplates| && cfg.clientTemplates[m].name == TemplateOf(p)
  {
    hide *;
    OnePodPerTemplate(cfg, states, actions, i, client);
    OnePerListed(cfg, states[i].status[client].pods, k);
  }

  lemma OnePerListed(cfg: Config, pods: map<string, PodStatus>, k: nat)
    requires OnePerTemplate(cfg, pods) && k < |cfg.clientTemplates|
    ensures |set p | p in pods && TemplateOf(p) == cfg.clientTemplates[k].name| == 1
    ensures forall p :: p in pods ==>
                          exists m :: 0 <= m < |cfg.clientTemplates| && cfg.clientTemplates[m].name == TemplateOf(p)
  {
    hide TemplateOf, WellNamed;
    var name := cfg.clientTemplates[k].name;
    EveryTemplateIsMapped(cfg.clientTemplates, k);
    assert name in Templates(cfg);
    var p :| p in pods && TemplateOf(p) == name;
    assert (set q | q in pods && TemplateOf(q) == name) == {p};
    forall q | q in pods ensures exists m :: 0 <= m < |cfg.clientTemplates| && cfg.clientTemplates[m].name == TemplateOf(q) {
      OnlyTemplatesAreMapped(cfg.clientTemplates, TemplateOf(q));
    }
  }

  lemma StatusIsFit(cfg: Config, s: State)
    requires Inv(cfg, s)
    ensures AllOnePerTemplate(cfg, s.status) && WithinCapacity(cfg, s.status) && Allocated(s.status) <= s.used
    ensures StatusRewritable(s.status) && PodsKnown(cfg, s.used, s.pods)
  {
    hide *;
    InvMeans(cfg, s);
    StatusFitMeans(cfg, s.used, s.status);
  }

  /** No pod is recorded for more clients than its template allows, disconnected ones in grace included. */
  lemma CapacityHolds(cfg: Config, states: seq<State>, actions: seq<Action>, i: nat, pod: string)
    requires ValidConfig(cfg) && Run(cfg, states, actions) && i < |states| && Users(states[i].status, pod) != {}
    ensures WellNamed(cfg.session, pod) && TemplateOf(pod) in Templates(cfg)
    ensures |Users(states[i].status, pod)| <= Templates(cfg)[TemplateOf(pod)].maxClients
  {
    RunKeepsInv(cfg, states, actions, i);
    StatusIsFit(cfg, states[i]);
    NamesWellFormed(cfg, states[i].status);
    hide Run, Inv, AllOnePerTemplate, WellNamed, TemplateOf, Templates;
    var client :| client in Users(states[i].status, pod);
    assert pod in Allocated(states[i].status);
  }

  // ---- packing ----

  /** A pass whose status is stored opens exactly as many pods of a template as the newcomers need beyond the free slots, and no status
      with the same clients that keeps the carried assignments and respects capacity has fewer. */
  lemma PassOpensFewestPods(cfg: Config, s: State, a: Action, s': State, other: Statuses, template: string)
    requires ValidConfig(cfg) && Inv(cfg, s) && Next(cfg, s, a, s') && Stored(cfg, s, a, s')
    requires template in Templates(cfg)
    ensures var carried := Carried(s.now, cfg.timeoutSeconds, s.clients, s.status);
            var n := |Newcomers(s.now, cfg.timeoutSeconds, s.clients, s.status)|;
            var size := Templates(cfg)[template].maxClients;
            var f := FreeSlots(carried, size, PodsOf(carried, template));
            && |PodsOf(s'.status, template) - PodsOf(carried, template)| == (if n <= f then 0 else CeilDiv(n - f, size))
            && (&& other.Keys == s'.status.Keys
                && AllOnePerTemplate(cfg, other) && WithinCapacity(cfg, other)
                && (forall c :: c in carried ==> c in other && other[c].pods.Keys == carried[c].pods.Keys)
                ==> |PodsOf(s'.status, template)| <= |PodsOf(other, template)|)
  {
    hide *;
    var carried := Carried(s.now, cfg.timeoutSeconds, s.clients, s.status);
    var newcomers := Newcomers(s.now, cfg.timeoutSeconds, s.clients, s.status);
    StoredMeans(cfg, s, a, s');
    var listed, alloc := ListedPods(cfg, s.pods), a.effects.alloc;
    InvMeans(cfg, s);
    ClientPassMeans(cfg, s, a, s');
    PlacesIsPlaced(cfg, s, a.ip, a.others, alloc);
    CarriedIsFit(cfg, s.used, s.status, s.now, s.clients);
    StatusFitMeans(cfg, s.used, carried);
    CarriedAreNotNew(s.now, cfg.timeoutSeconds, s.clients, s.status);
    PodsOpened(cfg, carried, newcomers, listed, s.used, alloc, template);
    ReportedKeeps(listed, a.ip, alloc);
    SamePodsOf(alloc, s'.status, template);
    if && other.Keys == s'.status.Keys
       && AllOnePerTemplate(cfg, other) && WithinCapacity(cfg, other)
       && forall c :: c in carried ==> c in other && other[c].pods.Keys == carried[c].pods.Keys {
      PlacedMeans(cfg, carried, newcomers, listed, s.used, alloc);
      PackingIsOptimal(cfg, carried, newcomers, listed, s.used, alloc, other, template);
    }
  }

  lemma PlacesIsPlaced(cfg: Config, s: State, ip: Option<string>, others: string, alloc: Statuses)
    requires ValidConfig(cfg) && PlacesNewcomers(cfg, s.used, GivenTo(s, ip, others), ViewOf(s), alloc)
    ensures Placed(cfg, Carried(s.now, cfg.timeoutSeconds, s.clients, s.status),
                   Newcomers(s.now, cfg.timeoutSeconds, s.clients, s.status), ListedPods(cfg, s.pods), s.used, alloc)
  {
    hide Placed, Carried, Newcomers, ListedPods;
  }

  lemma CarriedAreNotNew(now: int, timeoutSeconds: int, clients: map<string, bool>, status: Statuses)
    ensures Carried(now, timeoutSeconds, clients, status).Keys !! Newcomers(now, timeoutSeconds, clients, status)
  {}

  lemma SamePodsOf(a: Statuses, b: Statuses, template: string)
    requires Allocated(a) == Allocated(b)
    ensures PodsOf(a, template) == PodsOf(b, template)
  {
    hide Allocated;
  }

  // ---- readiness ----

  lemma ClusterPodsAreListed(cfg: Config, s: State, pod: string)
    requires ValidConfig(cfg) && Inv(cfg, s) && WellNamed(cfg.session, pod)
    ensures pod in ListedPods(cfg, s.pods) <==> pod in s.pods
    ensures pod in s.pods ==> ListedPods(cfg, s.pods)[pod] == s.pods[pod]
  {
    StatusIsFit(cfg, s);
    KnownPodsFit(cfg, s.used, s.pods);
    hide Inv, WellNamed;
  }

  /** After a pass whose status is stored, a pod is reported ready exactly when it was in the cluster with Ready=True and the address was
      known, and a client exactly when all its pods are. */
  lemma ReadinessIsExact(cfg: Config, s: State, a: Action, s': State, client: string, pod: string)
    requires ValidConfig(cfg) && Inv(cfg, s) && Next(cfg, s, a, s') && Stored(cfg, s, a, s')
    requires client in s'.status && pod in s'.status[client].pods
    ensures s'.status[client].pods[pod].ready <==> pod in s.pods && s.pods[pod].readiness == ReadyTrue && a.ip.Some?
    ensures s'.status[client].ready <==> forall p :: p in s'.status[client].pods ==> s'.status[client].pods[p].ready
  {
    hide *;
    StoredMeans(cfg, s, a, s');
    ClientPassMeans(cfg, s, a, s');
    ClientPassKeepsInv(cfg, s, a, s');
    StatusIsFit(cfg, s');
    RecordedIsAllocated(s'.status, client, pod);
    NamesWellFormed(cfg, s'.status);
    ClusterPodsAreListed(cfg, s, pod);
    ReportedKeeps(ListedPods(cfg, s.pods), a.ip, a.effects.alloc);
    ReportedReadiness(ListedPods(cfg, s.pods), a.ip, a.effects.alloc, client, pod);
  }

  lemma RecordedIsAllocated(status: Statuses, client: string, pod: string)
    requires client in status && pod in status[client].pods
    ensures pod in Allocated(status)
  {}

  lemma ReportedReadiness(listed: Pods, ip: Option<string>, status: Statuses, client: string, pod: string)
    requires StatusRewritable(status) && client in status && pod in status[client].pods
    ensures var entry := Reported(listed, ip, status)[client];
            && pod in entry.pods
            && (entry.pods[pod].ready <==> pod in listed && listed[pod].readiness == ReadyTrue && ip.Some?)
            && (entry.ready <==> forall p :: p in entry.pods ==> entry.pods[p].ready)
  {
    var before, entry := status[client], Reported(listed, ip, status)[client];
    assert entry == ReportedClient(listed, ip, before);
    forall p | p in entry.pods ensures entry.pods[p].ready <==> PodIsReady(listed, ip, p) {
      assert entry.pods[p] == ReportedPod(listed, ip, p, before.pods[p]);
    }
  }

  // ---- spawning ----

  /** A pass that went through leaves every recorded pod in the cluster, having created exactly those that were not. */
  lemma FinishedPassSpawnsMissing(cfg: Config, s: State, a: Action, s': State, pod: string)
    requires ValidConfig(cfg) && Inv(cfg, s) && Next(cfg, s, a, s') && Stored(cfg, s, a, s')
    requires Completed(cfg, ViewOf(s), a.effects)
    ensures pod in s'.pods <==> pod in s.pods || pod in Allocated(s'.status)
    ensures pod in Allocated(s'.status) && pod !in s.pods ==>
              && TemplateOf(pod) in Templates(cfg)
              && s'.pods[pod] == ClusterPod(cfg.session, ClientPod, Templates(cfg)[TemplateOf(pod)].containers, Missing)
  {
    hide *;
    SpawnedIs(cfg, pod);
    StoredMeans(cfg, s, a, s');
    CompletedMeans(cfg, s, a.effects);
    ClientPassMeans(cfg, s, a, s');
    ClientPassKeepsInv(cfg, s, a, s');
    ReportedKeeps(ListedPods(cfg, s.pods), a.ip, a.effects.alloc);
    StatusIsFit(cfg, s');
    NamesWellFormed(cfg, s'.status);
    if pod in Allocated(s'.status) {
      ClusterPodsAreListed(cfg, s, pod);
    }
    SpawnedAre(cfg, s.pods, a.effects.created, pod);
  }

  lemma SpawnedIs(cfg: Config, pod: string)
    ensures TemplateOf(pod) in Templates(cfg) ==>
              SpawnedPod(cfg, pod) == ClusterPod(cfg.session, ClientPod, Templates(cfg)[TemplateOf(pod)].containers, Missing)
  {
    hide TemplateOf, Templates;
  }

  // ---- registrations ----

  /** What a client-pod pass registers is in its first stage, made now, in the name of the session; what was registered
      before and stays is as it was. */
  lemma NewRegistrations(cfg: Config, s: State, a: Action, s': State, pod: string)
    requires ValidConfig(cfg) && Next(cfg, s, a, s') && (a.ReconcileClients? || a.ReconcileSession?)
    requires pod in s'.registrations
    ensures s'.registrations[pod]
            == if pod in s.registrations then s.registrations[pod] else Registration(cfg.session, s.now, Timeout)
  {
    hide *;
    if a.ReconcileClients? {
      ClientPassMeans(cfg, s, a, s');
      RegisteredNow(s.registrations, a.effects.idle, a.effects.busy, cfg.session, s.now, pod);
    } else {
      SessionPassMeans(cfg, s, a, s');
      RegisteredNow(s.registrations, a.idle, a.busy, cfg.session, s.now, pod);
    }
  }

  lemma RegisteredNow(before: Registrations, idle: set<string>, busy: set<string>, session: string, now: int, pod: string)
    ensures var after := RegistrationsAfter(before, idle, busy, session, now);
            pod in after ==> after[pod] == if pod in before then before[pod] else Registration(session, now, Timeout)
  {}

  /** In a run no registration is made in the future. */
  lemma {:induction false} RegistrationsArePast(cfg: Config, states: seq<State>, actions: seq<Action>, i: nat, pod: string)
    requires ValidConfig(cfg) && Run(cfg, states, actions) && i < |states| && pod in states[i].registrations
    ensures states[i].registrations[pod].created <= states[i].now && states[i].registrations[pod].session == cfg.session
  {
    hide *;
    RunKeepsInv(cfg, states, actions, i);
    RegistrationIsFit(cfg, states[i], pod);
    StartsUnregistered(cfg, states, actions);
    if i > 0 {
      var s, a, s' := states[i - 1], actions[i - 1], states[i];
      RunKeepsInv(cfg, states, actions, i - 1);
      RunStep(cfg, states, actions, i - 1);
      OneRegistrationStep(cfg, s, a, s', pod);
      if pod in s.registrations {
        RegistrationsArePast(cfg, states, actions, i - 1, pod);
      }
    }
  }

  lemma StartsUnregistered(cfg: Config, states: seq<State>, actions: seq<Action>)
    requires ValidConfig(cfg) && Run(cfg, states, actions)
    ensures |states| == |actions| + 1 && states[0].registrations == map[]
  {
    hide Next;
  }

  lemma RegistrationIsFit(cfg: Config, s: State, pod: string)
    requires Inv(cfg, s) && pod in s.registrations
    ensures s.registrations[pod].session == cfg.session
  {
    InvMeans(cfg, s);
    hide Inv;
  }

  lemma OneRegistrationStep(cfg: Config, s: State, a: Action, s': State, pod: string)
    requires ValidConfig(cfg) && Inv(cfg, s) && Next(cfg, s, a, s') && pod in s'.registrations
    ensures s'.now >= s.now
    ensures if pod in s.registrations then s'.registrations[pod].created == s.registrations[pod].created
            else s'.registrations[pod].created == s'.now
  {
    hide *;
    match a
    case Collect(_, _) => CollectionOfOne(cfg, s, a, s', pod);
    case ReconcileClients(_, _, _) =>
      ClientPassMeans(cfg, s, a, s');
      NewRegistrations(cfg, s, a, s', pod);
    case ReconcileSession(_, _, _) =>
      SessionPassMeans(cfg, s, a, s');
      NewRegistrations(cfg, s, a, s', pod);
    case Publish(_, _, _) => PublishMeans(cfg, s, a, s');
    case _ => EnvironmentMeans(cfg, s, a, s');
  }

  // ---- session pods ----

  /** In every reachable state the session's own pods are template pods, and counting them decides whether one is missing. */
  lemma SessionPodsAreTemplatePods(cfg: Config, states: seq<State>, actions: seq<Action>, i: nat)
    requires ValidConfig(cfg) && Run(cfg, states, actions) && i < |states|
    requires forall j, k :: 0 <= j < k < |cfg.sessionTemplates| ==>
                              cfg.sessionTemplates[j].name != cfg.sessionTemplates[k].name
    ensures var found := FoundPods(cfg, states[i].pods);
            && found.Keys == TemplatePodNames(cfg) * states[i].pods.Keys
            && (|found| == |cfg.sessionTemplates| <==> TemplatePodNames(cfg) <= states[i].pods.Keys)
  {
    hide *;
    RunKeepsInv(cfg, states, actions, i);
    StatusIsFit(cfg, states[i]);
    KnownPodsFit(cfg, states[i].used, states[i].pods);
    var found := FoundPods(cfg, states[i].pods);
    FoundAreInCluster(cfg, states[i].pods);
    CountTestIsSetTest(cfg, found.Keys);
    assert |found| == |found.Keys|;
  }

  /** What is restored is a session pod of this session with the containers of the first template of its name. */
  lemma RestoredPods(cfg: Config, s: State, a: Action, s': State, k: nat)
    requires ValidConfig(cfg) && Next(cfg, s, a, s') && a.ReconcileSession? && a.created == ToRestore(cfg, s.clients, s.pods)
    requires k < |cfg.sessionTemplates| && exists c :: c in s.clients && s.clients[c]
    requires forall m :: 0 <= m < k ==> cfg.sessionTemplates[m].name != cfg.sessionTemplates[k].name
    requires var pod := cfg.session + "-" + cfg.sessionTemplates[k].name; pod !in s.pods
    ensures var pod := cfg.session + "-" + cfg.sessionTemplates[k].name;
            && pod in s'.pods
            && s'.pods[pod] == ClusterPod(cfg.session, SessionPod, cfg.sessionTemplates[k].containers, Missing)
  {
    hide *;
    SessionPassMeans(cfg, s, a, s');
    FirstOfItsName(cfg, k);
    RestoredPod(cfg, s.clients, s.pods, k);
    FirstContainers(cfg, cfg.sessionTemplates, k);
  }

  lemma FirstOfItsName(cfg: Config, k: nat)
    requires k < |cfg.sessionTemplates|
    requires forall m :: 0 <= m < k ==> cfg.sessionTemplates[m].name != cfg.sessionTemplates[k].name
    ensures var pod := SessionPodName(cfg.session, cfg.sessionTemplates[k].name);
            && pod == cfg.session + "-" + cfg.sessionTemplates[k].name
            && pod !in (set t | t in cfg.sessionTemplates[..k] :: SessionPodName(cfg.session, t.name))
  {
    var pod, dash := SessionPodName(cfg.session, cfg.sessionTemplates[k].name), cfg.session + "-";
    forall t | t in cfg.sessionTemplates[..k] ensures SessionPodName(cfg.session, t.name) != pod {
      assert SessionPodName(cfg.session, t.name)[|dash|..] == t.name && pod[|dash|..] == cfg.sessionTemplates[k].name;
    }
  }

  lemma RestoredPod(cfg: Config, clients: map<string, bool>, pods: Pods, k: nat)
    requires k < |cfg.sessionTemplates| && (exists c :: c in clients && clients[c])
    requires SessionPodName(cfg.session, cfg.sessionTemplates[k].name) !in pods
    ensures var pod, after := SessionPodName(cfg.session, cfg.sessionTemplates[k].name),
                              WithRestored(cfg, pods, ToRestore(cfg, clients, pods));
            && pod in after
            && after[pod] == ClusterPod(cfg.session, SessionPod, ContainersFor(cfg, cfg.sessionTemplates, pod), Missing)
  {
    hide ContainersFor, SessionPodName;
    var c :| c in clients && clients[c];
    assert c in ConnectedInSpec(clients);
    assert cfg.sessionTemplates[k] in cfg.sessionTemplates;
  }

  lemma FoundAreInCluster(cfg: Config, pods: Pods)
    ensures FoundPods(cfg, pods).Keys <= pods.Keys
  {}

  /** A restoring pass without failures leaves every template's pod in the cluster if somebody is connected, and each pod
      it found registered exactly when nobody is. */
  lemma SessionPodsComeBack(cfg: Config, states: seq<State>, actions: seq<Action>, i: nat)
    requires ValidConfig(cfg) && Run(cfg, states, actions) && i < |actions| && i + 1 < |states|
    requires actions[i].ReconcileSession?
    requires actions[i].created == ToRestore(cfg, states[i].clients, states[i].pods)
    requires actions[i].idle + actions[i].busy == FoundPods(cfg, states[i].pods).Keys
    ensures var s, s' := states[i], states[i + 1];
            && (ConnectedInSpec(s.clients) != {} ==> TemplatePodNames(cfg) <= s'.pods.Keys)
            && forall p :: p in TemplatePodNames(cfg) && p in s.pods ==>
                             (p in s'.registrations <==> ConnectedInSpec(s.clients) == {})
  {
    var s, a, s' := states[i], actions[i], states[i + 1];
    RunKeepsInv(cfg, states, actions, i);
    RunStep(cfg, states, actions, i);
    hide *;
    StatusIsFit(cfg, s);
    KnownPodsFit(cfg, s.used, s.pods);
    SessionPassMeans(cfg, s, a, s');
    SessionPodsRestored(cfg, s.clients, s.now, s.pods, s.registrations, a.idle, a.busy, a.created, s'.pods,
                        s'.registrations);
    FoundAreInCluster(cfg, s'.pods);
  }
}
