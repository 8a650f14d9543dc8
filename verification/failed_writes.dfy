/** Three runs from an initial state in which a single failed write shows: two that cost a connected client its pod, and one
    in which a successful pass leaves a status other than the one it computed. */
module FailedWrites {
  import opened Strings
  import opened Names
  import opened Model
  import opened SessionStatus
  import opened PodIndex
  import opened Placement
  import opened Allocator
  import opened RegistrationManager
  import opened ReadinessReport
  import opened ClientPods
  import opened SessionPods
  import opened GarbageCollector
  import opened Network
  import opened System
  import opened Steps
  import opened SystemInvariant
  import opened PassLaws
  import opened StatusGate
  import opened Grace

  // ---- the setting ----

  /** One template for single clients, a pod name of it, and no second grace period. */
  ghost predicate Instance(cfg: Config, pod: string) {
    && ValidConfig(cfg) && cfg.clientTemplates != []
    && cfg.timeoutSeconds == 5 && cfg.reutilizeTimeoutSeconds == 0
    && WellNamed(cfg.session, pod)
    && Templates(cfg) == map[TemplateOf(pod) := ClientTemplate(TemplateOf(pod), 1, [])]
  }

  lemma InstanceExists(session: string, template: string, suffix: string)
    requires ValidSession(session) && Plain(template) && Plain(suffix)
    ensures Instance(Config(session, [ClientTemplate(template, 1, [])], [], 5, 0),
                     ClientPodName(session, template, suffix))
  {
    hide ValidSession, Plain;
    ClientPodNameParses(session, template, suffix);
    hide WellNamed, TemplateOf, ClientPodName;
    var items := [ClientTemplate(template, 1, [])];
    assert items[..0] == [] && TemplateMap([]) == map[];
    assert TemplateMap(items) == map[template := items[0]];
  }

  lemma TwoPartNamesAreSessions()
    ensures ValidSession("a-b")
  {
    assert "a-b" == "a" + "-" + "b";
    SplitHead("a", '-', "b");
    SplitWhole("b", '-');
  }

  lemma InstanceMeans(cfg: Config, pod: string)
    requires Instance(cfg, pod)
    ensures ValidConfig(cfg) && cfg.clientTemplates != [] && WellNamed(cfg.session, pod)
    ensures cfg.timeoutSeconds == 5 && cfg.reutilizeTimeoutSeconds == 0
    ensures Templates(cfg) == map[TemplateOf(pod) := ClientTemplate(TemplateOf(pod), 1, [])]
    ensures SpawnedPod(cfg, pod) == ClusterPod(cfg.session, ClientPod, [], Missing)
  {
    hide ValidConfig, WellNamed, TemplateOf, Templates;
  }

  /** Client `c` alone on the pod, last seen then. */
  function SeenAt(pod: string, lastSeen: int): Statuses {
    map["c" := ClientStatus(lastSeen, false, map[pod := PodStatus(false, [])])]
  }

  function Spawned(cfg: Config, pod: string): Pods {
    map[pod := SpawnedPod(cfg, pod)]
  }

  function Registered(cfg: Config, pod: string): Registrations {
    map[pod := Registration(cfg.session, 10, Timeout)]
  }

  function AnnotatedSeen(pod: string, lastSeen: int): Option<Digest> {
    Some(Digest(SeenAt(pod, lastSeen), ""))
  }

  lemma SeenUsers(pod: string, lastSeen: int)
    ensures var status := SeenAt(pod, lastSeen);
            && Allocated(status) == {pod} && Users(status, pod) == {"c"}
            && PodsOf(status, TemplateOf(pod)) == {pod}
            && StatusRewritable(status)
            && (HasConnectedUser(status, pod) <==> lastSeen == DEFAULT_TIME)
            && BusyPods(status) == (if lastSeen == DEFAULT_TIME then {pod} else {})
            && forall listed: Pods :: pod in IdlePods(status, listed) <==> lastSeen != DEFAULT_TIME
  {
    hide TemplateOf;
    var status := SeenAt(pod, lastSeen);
    assert "c" in status && pod in status["c"].pods;
    assert forall c :: c in status ==> c == "c";
  }

  lemma NobodySeen(cfg: Config)
    ensures var nobody: Statuses := map[];
            && Allocated(nobody) == {} && BusyPods(nobody) == {} && StatusRewritable(nobody)
            && WithinCapacity(cfg, nobody)
  {}

  lemma SeenFits(cfg: Config, pod: string, lastSeen: int)
    requires Instance(cfg, pod)
    ensures AllOnePerTemplate(cfg, SeenAt(pod, lastSeen)) && WithinCapacity(cfg, SeenAt(pod, lastSeen))
  {
    hide TemplateOf, Templates, WellNamed, ValidConfig, Users, Allocated;
    SeenUsers(pod, lastSeen);
    var pods := SeenAt(pod, lastSeen)["c"].pods;
    assert pod in pods;
    assert OnePerTemplate(cfg, pods);
  }

  lemma SeenNeedsOnePod(cfg: Config, pod: string, lastSeen: int, carried: Statuses)
    requires Instance(cfg, pod) && (carried == map[] || carried == SeenAt(pod, lastSeen))
    ensures FewestPods(cfg, carried, SeenAt(pod, lastSeen))
  {
    hide WellNamed, TemplateOf, Templates, ValidConfig, Users, Allocated, PodsOf;
    SeenUsers(pod, lastSeen);
    NoPods(TemplateOf(pod));
    assert |SeenAt(pod, lastSeen)| == 1 && CeilDiv(1, 1) == 1;
  }

  lemma NoPods(template: string)
    ensures PodsOf(map[], template) == {}
  {}

  lemma SeenIsReported(pod: string, lastSeen: int, listed: Pods)
    requires StatusRewritable(SeenAt(pod, lastSeen))
    ensures Reported(listed, None, SeenAt(pod, lastSeen)) == SeenAt(pod, lastSeen)
  {
    var status := SeenAt(pod, lastSeen);
    assert pod in status["c"].pods && !PodIsReady(listed, None, pod);
    var reported := ReportedClient(listed, None, status["c"]);
    assert reported.pods == status["c"].pods;
    assert reported == status["c"];
  }

  // ---- passes that change nothing but what the effects say ----

  /** A pass whose placement needs no reporting, from the facts that make it one. */
  lemma IsClientPass(cfg: Config, s: State, e: Effects, s': State)
    requires ValidConfig(cfg) && cfg.clientTemplates != []
    requires PlacesNewcomers(cfg, s.used, GivenTo(s, None, ""), ViewOf(s), e.alloc) && StatusRewritable(e.alloc)
    requires Reported(ListedPods(cfg, s.pods), None, e.alloc) == e.alloc
    requires e.idle <= IdlePods(e.alloc, ListedPods(cfg, s.pods)) && e.busy <= BusyPods(e.alloc)
    requires e.created <= PodsMissing(cfg, ViewOf(s), e.alloc)
    requires e.skipped <==> s.annotation == Some(Digest(e.alloc, ""))
    requires (e.skipped ==> !e.wrote) && (e.annotated ==> e.wrote) && (e.created != {} ==> e.skipped || e.annotated)
    requires s' == s.(
                     status := if e.wrote then e.alloc else s.status,
                     annotation := if e.annotated then Some(Digest(e.alloc, "")) else s.annotation,
                     pods := WithSpawned(cfg, s.pods, e.created),
                     registrations := RegistrationsAfter(s.registrations, e.idle, e.busy, cfg.session, s.now),
                     used := s.used + Allocated(e.alloc))
    ensures Next(cfg, s, ReconcileClients(None, "", e), s')
  {
    hide PlacesNewcomers, StatusRewritable, IdlePods, BusyPods, RegistrationsAfter, WithSpawned, Reported, ListedPods,
         PodsMissing, Allocated, ValidConfig;
  }

  /** With nobody to place, what is carried over is the placement. */
  lemma NobodyPlaced(cfg: Config, s: State, carried: Statuses)
    requires ValidConfig(cfg) && WithinCapacity(cfg, carried) && FewestPods(cfg, carried, carried)
    requires Carried(s.now, cfg.timeoutSeconds, s.clients, s.status) == carried
    requires Newcomers(s.now, cfg.timeoutSeconds, s.clients, s.status) == {}
    ensures PlacesNewcomers(cfg, s.used, GivenTo(s, None, ""), ViewOf(s), carried)
  {
    hide WithinCapacity, FewestPods, FreshEntry, Allocated, ListedPods, ValidConfig;
  }

  /** The one client placed on a fresh pod of an empty cluster. */
  lemma FirstPlaced(cfg: Config, s: State, pod: string)
    requires Instance(cfg, pod) && s.clients == map["c" := true] && s.status == map[] && s.pods == map[] && s.used == {}
    ensures ValidConfig(cfg)
    ensures PlacesNewcomers(cfg, s.used, GivenTo(s, None, ""), ViewOf(s), SeenAt(pod, DEFAULT_TIME))
  {
    hide *;
    SeenFits(cfg, pod, DEFAULT_TIME);
    SeenNeedsOnePod(cfg, pod, DEFAULT_TIME, map[]);
    SeenIsFresh(cfg, pod);
    InstanceMeans(cfg, pod);
    OneArrives(cfg, s);
    OneIsPlaced(cfg, s, SeenAt(pod, DEFAULT_TIME), pod);
  }

  lemma OneArrives(cfg: Config, s: State)
    requires s.clients == map["c" := true] && s.status == map[] && s.pods == map[]
    ensures Carried(s.now, cfg.timeoutSeconds, s.clients, s.status) == map[]
    ensures Newcomers(s.now, cfg.timeoutSeconds, s.clients, s.status) == {"c"}
    ensures ListedPods(cfg, s.pods) == map[]
  {
    hide Expired;
  }

  lemma OneIsPlaced(cfg: Config, s: State, alloc: Statuses, pod: string)
    requires ValidConfig(cfg) && WithinCapacity(cfg, alloc) && FewestPods(cfg, map[], alloc) && s.used == {}
    requires alloc == SeenAt(pod, DEFAULT_TIME) && FreshEntry(cfg, SeenAt(pod, DEFAULT_TIME)["c"])
    requires Carried(s.now, cfg.timeoutSeconds, s.clients, s.status) == map[]
    requires Newcomers(s.now, cfg.timeoutSeconds, s.clients, s.status) == {"c"}
    requires ListedPods(cfg, s.pods) == map[]
    ensures PlacesNewcomers(cfg, s.used, GivenTo(s, None, ""), ViewOf(s), alloc)
  {
    hide WithinCapacity, FewestPods, FreshEntry, ValidConfig, ListedPods, Carried, Newcomers, Allocated;
  }

  lemma SeenIsFresh(cfg: Config, pod: string)
    requires Instance(cfg, pod)
    ensures FreshEntry(cfg, SeenAt(pod, DEFAULT_TIME)["c"])
  {
    SeenFits(cfg, pod, DEFAULT_TIME);
    hide Instance, AllOnePerTemplate, WellNamed, TemplateOf, OnePerTemplate;
    SeenHasOne(cfg, SeenAt(pod, DEFAULT_TIME));
    InstanceMeans(cfg, pod);
    assert Paths(pod, []) == [];
    assert FreshPodStatus(pod, []) == PodStatus(false, []);
  }

  lemma SeenHasOne(cfg: Config, status: Statuses)
    requires AllOnePerTemplate(cfg, status) && "c" in status
    ensures OnePerTemplate(cfg, status["c"].pods)
  {}

  /** The one client carried over, as it is or as just lost or just back. */
  lemma SameClientPlaced(cfg: Config, s: State, pod: string, before: int, after: int)
    requires Instance(cfg, pod) && s.status == SeenAt(pod, before) && "c" in s.clients && s.clients.Keys == {"c"}
    requires !Expired(s.now, before, 5) && after == NextSeen(s.now, s.clients["c"], before)
    ensures ValidConfig(cfg)
    ensures PlacesNewcomers(cfg, s.used, GivenTo(s, None, ""), ViewOf(s), SeenAt(pod, after))
  {
    hide *;
    SeenFits(cfg, pod, after);
    SeenNeedsOnePod(cfg, pod, after, SeenAt(pod, after));
    InstanceMeans(cfg, pod);
    OneCarried(s, pod, before, after);
    NobodyPlaced(cfg, s, SeenAt(pod, after));
  }

  lemma OneCarried(s: State, pod: string, before: int, after: int)
    requires s.status == SeenAt(pod, before) && s.clients.Keys == {"c"}
    requires !Expired(s.now, before, 5) && after == NextSeen(s.now, s.clients["c"], before)
    ensures Carried(s.now, 5, s.clients, s.status) == SeenAt(pod, after)
    ensures Newcomers(s.now, 5, s.clients, s.status) == {}
  {
    hide Expired, NextSeen;
  }

  // ---- what a pass finds and changes here ----

  lemma SeenDiffer(pod: string, t: int, u: int)
    requires t != u
    ensures SeenAt(pod, t) != SeenAt(pod, u) && SeenAt(pod, t) != map[]
  {
    assert SeenAt(pod, t)["c"].lastSeen == t && SeenAt(pod, u)["c"].lastSeen == u;
    assert "c" in SeenAt(pod, t);
  }

  lemma ListedHere(cfg: Config, pod: string)
    ensures ListedPods(cfg, map[]).Keys == {} && ListedPods(cfg, Spawned(cfg, pod)).Keys == {pod}
  {
    hide Templates, TemplateOf;
  }

  lemma SpawnedHere(cfg: Config, pod: string)
    ensures WithSpawned(cfg, map[], {pod}) == Spawned(cfg, pod)
    ensures forall pods: Pods :: WithSpawned(cfg, pods, {}) == pods
  {
    hide SpawnedPod;
  }

  lemma RegisteredHere(cfg: Config, pod: string)
    ensures RegistrationsAfter(map[], {pod}, {}, cfg.session, 10) == Registered(cfg, pod)
    ensures forall before: Registrations, busy, now :: busy !! before.Keys ==>
                                                         RegistrationsAfter(before, {}, busy, cfg.session, now) == before
  {}

  lemma MissingHere(cfg: Config, s: State, pod: string, lastSeen: int)
    requires s.pods == map[] || s.pods == Spawned(cfg, pod)
    ensures PodsMissing(cfg, ViewOf(s), SeenAt(pod, lastSeen)) == if s.pods == map[] then {pod} else {}
    ensures PodsMissing(cfg, ViewOf(s), map[]) == {}
  {
    ListedHere(cfg, pod);
    SeenUsers(pod, lastSeen);
    NobodySeen(cfg);
    hide ListedPods, Allocated, SeenAt, Spawned;
  }

  lemma IdleHere(cfg: Config, pods: Pods, pod: string, lastSeen: int)
    requires pods == map[] || pods == Spawned(cfg, pod)
    ensures IdlePods(SeenAt(pod, lastSeen), ListedPods(cfg, pods)) == if lastSeen == DEFAULT_TIME then {} else {pod}
    ensures BusyPods(SeenAt(pod, lastSeen)) == if lastSeen == DEFAULT_TIME then {pod} else {}
  {
    ListedHere(cfg, pod);
    SeenUsers(pod, lastSeen);
    hide ListedPods, Allocated, SeenAt, Spawned, HasConnectedUser;
    assert IdlePods(SeenAt(pod, lastSeen), ListedPods(cfg, pods)) <= {pod};
  }

  /** A pass that places or keeps the one client. */
  lemma OneClientPass(cfg: Config, s: State, pod: string, lastSeen: int, e: Effects, s': State)
    requires Instance(cfg, pod) && ValidConfig(cfg) && e.alloc == SeenAt(pod, lastSeen)
    requires s.pods == map[] || s.pods == Spawned(cfg, pod)
    requires PlacesNewcomers(cfg, s.used, GivenTo(s, None, ""), ViewOf(s), e.alloc)
    requires e.idle <= (if lastSeen == DEFAULT_TIME then {} else {pod})
    requires e.busy <= (if lastSeen == DEFAULT_TIME then {pod} else {})
    requires e.created <= (if s.pods == map[] then {pod} else {})
    requires e.skipped <==> s.annotation == AnnotatedSeen(pod, lastSeen)
    requires (e.skipped ==> !e.wrote) && (e.annotated ==> e.wrote) && (e.created != {} ==> e.skipped || e.annotated)
    requires s'.pods == (if e.created == {} then s.pods else Spawned(cfg, pod))
    requires s'.registrations == RegistrationsAfter(s.registrations, e.idle, e.busy, cfg.session, s.now)
    requires s' == s.(
                     status := if e.wrote then e.alloc else s.status,
                     annotation := if e.annotated then AnnotatedSeen(pod, lastSeen) else s.annotation,
                     pods := s'.pods, registrations := s'.registrations, used := s.used + {pod})
    ensures Next(cfg, s, ReconcileClients(None, "", e), s')
    ensures Completed(cfg, ViewOf(s), e) <==>
            && e.idle == (if lastSeen == DEFAULT_TIME then {} else {pod})
            && e.busy == (if lastSeen == DEFAULT_TIME then {pod} else {})
            && e.created == (if s.pods == map[] then {pod} else {})
            && (e.skipped || e.annotated)
  {
    hide *;
    InstanceMeans(cfg, pod);
    SeenUsers(pod, lastSeen);
    SeenIsReported(pod, lastSeen, ListedPods(cfg, s.pods));
    MissingHere(cfg, s, pod, lastSeen);
    IdleHere(cfg, s.pods, pod, lastSeen);
    SpawnedHere(cfg, pod);
    AnnotatedIs(pod, lastSeen);
    ViewPods(s);
    CompletedIs(cfg, ViewOf(s), e);
    assert e.created == {} || (e.created == {pod} && s.pods == map[]);
    assert s'.pods == WithSpawned(cfg, s.pods, e.created);
    IsClientPass(cfg, s, e, s');
  }

  lemma AnnotatedIs(pod: string, lastSeen: int)
    ensures AnnotatedSeen(pod, lastSeen) == Some(Digest(SeenAt(pod, lastSeen), ""))
  {}

  lemma ViewPods(s: State)
    ensures ViewOf(s).pods == s.pods
  {}

  lemma ClientSet(cfg: Config, s: State, connected: bool, s': State)
    requires ValidConfig(cfg) && (connected || "c" in s.clients)
    requires s' == s.(clients := s.clients["c" := connected])
    ensures Next(cfg, s, SetClient("c", connected), s')
  {
    hide ValidConfig;
  }

  // ---- a client comes, and is lost ----

  function Empty(): State {
    State(10, map[], map[], None, map[], map[], map[], [], {})
  }

  function Came(): State {
    Empty().(clients := map["c" := true])
  }

  function PlacedBy(pod: string): Effects {
    Effects(SeenAt(pod, DEFAULT_TIME), {}, {pod}, false, true, true, {pod})
  }

  function OnPod(cfg: Config, pod: string): State {
    Came().(status := SeenAt(pod, DEFAULT_TIME), annotation := AnnotatedSeen(pod, DEFAULT_TIME), pods := Spawned(cfg, pod),
            used := {pod})
  }

  function Lost(cfg: Config, pod: string): State {
    OnPod(cfg, pod).(clients := map["c" := false])
  }

  lemma Comes(cfg: Config, pod: string)
    requires Instance(cfg, pod)
    ensures ValidConfig(cfg)
    ensures Next(cfg, Empty(), SetClient("c", true), Came())
    ensures Next(cfg, Came(), ReconcileClients(None, "", PlacedBy(pod)), OnPod(cfg, pod))
    ensures Next(cfg, OnPod(cfg, pod), SetClient("c", false), Lost(cfg, pod))
  {
    hide Instance, ValidConfig, Next, RegistrationsAfter, SeenAt, Spawned, AnnotatedSeen, Templates, WellNamed,
         SpawnedPod, PlacesNewcomers, Completed;
    InstanceMeans(cfg, pod);
    FirstPlaced(cfg, Came(), pod);
    RegisteredHere(cfg, pod);
    AnnotatedIs(pod, DEFAULT_TIME);
    OneClientPass(cfg, Came(), pod, DEFAULT_TIME, PlacedBy(pod), OnPod(cfg, pod));
    ClientSet(cfg, Empty(), true, Came());
    ClientSet(cfg, OnPod(cfg, pod), false, Lost(cfg, pod));
  }

  // ---- a failed deregistration ----

  function NotedLost(pod: string): Effects {
    Effects(SeenAt(pod, 10), {pod}, {}, false, true, true, {})
  }

  function Idle(cfg: Config, pod: string): State {
    Lost(cfg, pod).(status := SeenAt(pod, 10), annotation := AnnotatedSeen(pod, 10), registrations := Registered(cfg, pod))
  }

  function Back(cfg: Config, pod: string): State {
    Idle(cfg, pod).(clients := map["c" := true])
  }

  /** Notes the return but fails to delete the registration, which does not stop it. */
  function NotDeregistered(pod: string): Effects {
    Effects(SeenAt(pod, DEFAULT_TIME), {}, {}, false, true, true, {})
  }

  function StillRegistered(cfg: Config, pod: string): State {
    Back(cfg, pod).(status := SeenAt(pod, DEFAULT_TIME), annotation := AnnotatedSeen(pod, DEFAULT_TIME))
  }

  function Later(cfg: Config, pod: string): State {
    StillRegistered(cfg, pod).(now := 16)
  }

  function Reaped(cfg: Config, pod: string): State {
    Later(cfg, pod).(pods := map[], registrations := map[])
  }

  function SpawnedAgain(pod: string): Effects {
    Effects(SeenAt(pod, DEFAULT_TIME), {}, {pod}, true, false, false, {pod})
  }

  function Returned(cfg: Config, pod: string): State {
    Reaped(cfg, pod).(pods := Spawned(cfg, pod))
  }

  lemma IsLostAndReturns(cfg: Config, pod: string)
    requires Instance(cfg, pod)
    ensures ValidConfig(cfg)
    ensures Next(cfg, Lost(cfg, pod), ReconcileClients(None, "", NotedLost(pod)), Idle(cfg, pod))
    ensures Next(cfg, Idle(cfg, pod), SetClient("c", true), Back(cfg, pod))
    ensures Next(cfg, Back(cfg, pod), ReconcileClients(None, "", NotDeregistered(pod)), StillRegistered(cfg, pod))
  {
    hide Instance, ValidConfig, Next, RegistrationsAfter, SeenAt, Spawned, AnnotatedSeen, Templates, WellNamed,
         SpawnedPod, PlacesNewcomers, Completed, Registered;
    InstanceMeans(cfg, pod);
    RegisteredHere(cfg, pod);
    AnnotatedIs(pod, 10);
    AnnotatedIs(pod, DEFAULT_TIME);
    SeenDiffer(pod, 10, DEFAULT_TIME);
    SpawnedIsSome(cfg, pod);
    SameClientPlaced(cfg, Lost(cfg, pod), pod, DEFAULT_TIME, 10);
    OneClientPass(cfg, Lost(cfg, pod), pod, 10, NotedLost(pod), Idle(cfg, pod));
    ClientSet(cfg, Idle(cfg, pod), true, Back(cfg, pod));
    SameClientPlaced(cfg, Back(cfg, pod), pod, 10, DEFAULT_TIME);
    OneClientPass(cfg, Back(cfg, pod), pod, DEFAULT_TIME, NotDeregistered(pod), StillRegistered(cfg, pod));
  }

  lemma SpawnedIsSome(cfg: Config, pod: string)
    ensures Spawned(cfg, pod) != map[] && pod in Spawned(cfg, pod)
  {
    hide SpawnedPod;
    assert pod in Spawned(cfg, pod);
  }

  /** Anybody's pod is deleted once its registration is overdue. */
  lemma OneIsReaped(cfg: Config, s: State, pod: string, s': State)
    requires Instance(cfg, pod) && ValidConfig(cfg) && s.now == 16
    requires s.pods == Spawned(cfg, pod) && s.registrations == Registered(cfg, pod)
    requires s' == s.(pods := map[], registrations := map[])
    ensures Next(cfg, s, Collect({pod}, {pod}), s')
  {
    InstanceMeans(cfg, pod);
    hide Instance, ValidConfig, SpawnedPod, Templates, TemplateOf, WellNamed;
    var verdict := Judge(TimesOf(cfg), s.pods.Keys, 16, pod, s.registrations[pod]);
    assert verdict == Reap;
    assert Reapable(TimesOf(cfg), s.pods.Keys, 16, s.registrations) == {pod};
  }

  lemma IsReapedAndSpawned(cfg: Config, pod: string)
    requires Instance(cfg, pod)
    ensures ValidConfig(cfg)
    ensures Next(cfg, StillRegistered(cfg, pod), Tick(16), Later(cfg, pod))
    ensures Next(cfg, Later(cfg, pod), Collect({pod}, {pod}), Reaped(cfg, pod))
    ensures Next(cfg, Reaped(cfg, pod), ReconcileClients(None, "", SpawnedAgain(pod)), Returned(cfg, pod))
    ensures Completed(cfg, ViewOf(Reaped(cfg, pod)), SpawnedAgain(pod))
  {
    hide Instance, ValidConfig, Next, RegistrationsAfter, SeenAt, Spawned, AnnotatedSeen, Templates, WellNamed,
         SpawnedPod, PlacesNewcomers, Completed, Registered;
    InstanceMeans(cfg, pod);
    RegisteredHere(cfg, pod);
    Ticks(cfg, StillRegistered(cfg, pod), 16);
    OneIsReaped(cfg, Later(cfg, pod), pod, Reaped(cfg, pod));
    SameClientPlaced(cfg, Reaped(cfg, pod), pod, DEFAULT_TIME, DEFAULT_TIME);
    OneClientPass(cfg, Reaped(cfg, pod), pod, DEFAULT_TIME, SpawnedAgain(pod), Returned(cfg, pod));
  }

  lemma Ticks(cfg: Config, s: State, later: int)
    requires ValidConfig(cfg) && s.now <= later
    ensures Next(cfg, s, Tick(later), s.(now := later))
  {
    hide ValidConfig;
  }

  function DeregistrationStates(cfg: Config, pod: string): seq<State> {
    [Empty(), Came(), OnPod(cfg, pod), Lost(cfg, pod), Idle(cfg, pod), Back(cfg, pod), StillRegistered(cfg, pod),
     Later(cfg, pod), Reaped(cfg, pod), Returned(cfg, pod)]
  }

  function DeregistrationActions(pod: string): seq<Action> {
    [SetClient("c", true), ReconcileClients(None, "", PlacedBy(pod)), SetClient("c", false),
     ReconcileClients(None, "", NotedLost(pod)), SetClient("c", true), ReconcileClients(None, "", NotDeregistered(pod)),
     Tick(16), Collect({pod}, {pod}), ReconcileClients(None, "", SpawnedAgain(pod))]
  }

  lemma EmptyIsInitial()
    ensures Init(Empty())
  {}

  /** A run from an initial state in which one deregistration fails: grace is lost, the collector deletes the pod under a
      client that is connected in the spec and in the status, and the next pass that goes through brings the name back. */
  lemma FailedDeregistration(cfg: Config, pod: string)
    requires Instance(cfg, pod)
    ensures ValidConfig(cfg) && Run(cfg, DeregistrationStates(cfg, pod), DeregistrationActions(pod))
    ensures var states := DeregistrationStates(cfg, pod);
            && GraceHolds(states[5].status, states[5].registrations)
            && !GraceHolds(states[6].status, states[6].registrations)
            && pod in states[7].pods && pod !in states[8].pods
            && "c" in states[8].clients && states[8].clients["c"] && HasConnectedUser(states[8].status, pod)
            && Completed(cfg, ViewOf(states[8]), SpawnedAgain(pod)) && pod in states[9].pods
  {
    hide Instance, ValidConfig, Next, SeenAt, Spawned, AnnotatedSeen, Registered, Completed, GraceHolds,
         HasConnectedUser, Init, Completed;
    InstanceMeans(cfg, pod);
    EmptyIsInitial();
    Comes(cfg, pod);
    IsLostAndReturns(cfg, pod);
    IsReapedAndSpawned(cfg, pod);
    SpawnedIsSome(cfg, pod);
    SeenUsers(pod, DEFAULT_TIME);
    GraceHere(cfg, pod);
    var states, actions := DeregistrationStates(cfg, pod), DeregistrationActions(pod);
    forall i | 0 <= i < |actions| ensures Next(cfg, states[i], actions[i], states[i + 1]) {
      assert i in {0, 1, 2, 3, 4, 5, 6, 7, 8};
    }
  }

  lemma GraceHere(cfg: Config, pod: string)
    ensures GraceHolds(SeenAt(pod, 10), Registered(cfg, pod))
    ensures !GraceHolds(SeenAt(pod, DEFAULT_TIME), Registered(cfg, pod))
    ensures GraceHolds(SeenAt(pod, DEFAULT_TIME), map[])
  {
    var status, registrations := SeenAt(pod, DEFAULT_TIME), Registered(cfg, pod);
    assert "c" in status && pod in status["c"].pods && pod in registrations && status["c"].lastSeen == DEFAULT_TIME;
  }

  // ---- a failed status write ----

  /** Registers the pod of the lost client and fails to write the status. */
  function NotWritten(pod: string): Effects {
    Effects(SeenAt(pod, 10), {pod}, {}, false, false, false, {})
  }

  function Opened(cfg: Config, pod: string): State {
    Lost(cfg, pod).(registrations := Registered(cfg, pod))
  }

  function BackUnseen(cfg: Config, pod: string): State {
    Opened(cfg, pod).(clients := map["c" := true])
  }

  function LaterUnseen(cfg: Config, pod: string): State {
    BackUnseen(cfg, pod).(now := 16)
  }

  function ReapedUnseen(cfg: Config, pod: string): State {
    LaterUnseen(cfg, pod).(pods := map[], registrations := map[])
  }

  function UnwrittenStates(cfg: Config, pod: string): seq<State> {
    [Empty(), Came(), OnPod(cfg, pod), Lost(cfg, pod), Opened(cfg, pod), BackUnseen(cfg, pod), LaterUnseen(cfg, pod),
     ReapedUnseen(cfg, pod)]
  }

  function UnwrittenActions(pod: string): seq<Action> {
    [SetClient("c", true), ReconcileClients(None, "", PlacedBy(pod)), SetClient("c", false),
     ReconcileClients(None, "", NotWritten(pod)), SetClient("c", true), Tick(16), Collect({pod}, {pod})]
  }

  lemma IsLostUnwritten(cfg: Config, pod: string)
    requires Instance(cfg, pod)
    ensures ValidConfig(cfg)
    ensures Next(cfg, Lost(cfg, pod), ReconcileClients(None, "", NotWritten(pod)), Opened(cfg, pod))
    ensures Next(cfg, Opened(cfg, pod), SetClient("c", true), BackUnseen(cfg, pod))
    ensures Next(cfg, BackUnseen(cfg, pod), Tick(16), LaterUnseen(cfg, pod))
    ensures Next(cfg, LaterUnseen(cfg, pod), Collect({pod}, {pod}), ReapedUnseen(cfg, pod))
  {
    hide Instance, ValidConfig, Next, RegistrationsAfter, SeenAt, Spawned, AnnotatedSeen, Templates, WellNamed,
         SpawnedPod, PlacesNewcomers, Completed, Registered;
    InstanceMeans(cfg, pod);
    RegisteredHere(cfg, pod);
    AnnotatedIs(pod, 10);
    AnnotatedIs(pod, DEFAULT_TIME);
    SeenDiffer(pod, 10, DEFAULT_TIME);
    SpawnedIsSome(cfg, pod);
    SameClientPlaced(cfg, Lost(cfg, pod), pod, DEFAULT_TIME, 10);
    OneClientPass(cfg, Lost(cfg, pod), pod, 10, NotWritten(pod), Opened(cfg, pod));
    ClientSet(cfg, Opened(cfg, pod), true, BackUnseen(cfg, pod));
    Ticks(cfg, BackUnseen(cfg, pod), 16);
    OneIsReaped(cfg, LaterUnseen(cfg, pod), pod, ReapedUnseen(cfg, pod));
  }

  /** A run from an initial state in which one status write fails after the registration was made: grace is lost although
      every registration write went through, and the pod is deleted under a connected client. */
  lemma FailedStatusWrite(cfg: Config, pod: string)
    requires Instance(cfg, pod)
    ensures ValidConfig(cfg) && Run(cfg, UnwrittenStates(cfg, pod), UnwrittenActions(pod))
    ensures var states := UnwrittenStates(cfg, pod);
            && GraceHolds(states[3].status, states[3].registrations)
            && !GraceHolds(states[4].status, states[4].registrations)
            && pod in states[6].pods && pod !in states[7].pods
            && "c" in states[7].clients && states[7].clients["c"] && HasConnectedUser(states[7].status, pod)
  {
    hide Instance, ValidConfig, Next, SeenAt, Spawned, AnnotatedSeen, Registered, Completed, GraceHolds,
         HasConnectedUser, Init;
    InstanceMeans(cfg, pod);
    EmptyIsInitial();
    Comes(cfg, pod);
    IsLostUnwritten(cfg, pod);
    SpawnedIsSome(cfg, pod);
    SeenUsers(pod, DEFAULT_TIME);
    GraceHere(cfg, pod);
    var states, actions := UnwrittenStates(cfg, pod), UnwrittenActions(pod);
    forall i | 0 <= i < |actions| ensures Next(cfg, states[i], actions[i], states[i + 1]) {
      assert i in {0, 1, 2, 3, 4, 5, 6};
    }
  }

  // ---- a failed annotation ----

  /** What a pass computes when there are no clients. */
  function Nobody(skipped: bool): Effects {
    Effects(map[], {}, {}, skipped, !skipped, !skipped, {})
  }

  function Noted(): State {
    Empty().(annotation := Some(Digest(map[], "")))
  }

  function CameAfter(): State {
    Noted().(clients := map["c" := true])
  }

  /** Writes the status and fails to annotate its hash. */
  function NotAnnotated(pod: string): Effects {
    Effects(SeenAt(pod, DEFAULT_TIME), {}, {pod}, false, true, false, {})
  }

  function Outdated(pod: string): State {
    CameAfter().(status := SeenAt(pod, DEFAULT_TIME), used := {pod})
  }

  function Left(pod: string): State {
    Outdated(pod).(clients := map[])
  }

  function OutdatedStates(pod: string): seq<State> {
    [Empty(), Noted(), CameAfter(), Outdated(pod), Left(pod), Left(pod)]
  }

  function OutdatedActions(pod: string): seq<Action> {
    [ReconcileClients(None, "", Nobody(false)), SetClient("c", true), ReconcileClients(None, "", NotAnnotated(pod)),
     RemoveClient("c"), ReconcileClients(None, "", Nobody(true))]
  }

  lemma NobodyIsCarried(s: State)
    requires s.clients == map[]
    ensures Carried(s.now, 5, s.clients, s.status) == map[]
    ensures Newcomers(s.now, 5, s.clients, s.status) == {}
  {
    hide Expired;
  }

  lemma NobodyNeedsNoPods(cfg: Config, pod: string)
    requires Instance(cfg, pod)
    ensures FewestPods(cfg, map[], map[])
  {
    hide WellNamed, TemplateOf, Templates, ValidConfig, PodsOf;
    NoPods(TemplateOf(pod));
    var nobody: Statuses := map[];
    assert |nobody| == 0 && CeilDiv(0, 1) == 0;
  }

  lemma NobodyIsReported(listed: Pods)
    requires StatusRewritable(map[])
    ensures Reported(listed, None, map[]) == map[]
  {}

  lemma NobodyRegistered(cfg: Config, s: State)
    requires s.pods == map[]
    ensures IdlePods(map[], ListedPods(cfg, s.pods)) == {}
    ensures PodsMissing(cfg, ViewOf(s), map[]) == {}
  {
    ListedHere(cfg, "");
    NobodySeen(cfg);
    hide ListedPods, Allocated;
  }

  /** A pass in an empty cluster without clients. */
  lemma NobodysPass(cfg: Config, s: State, pod: string, skipped: bool, s': State)
    requires Instance(cfg, pod) && s.clients == map[] && s.pods == map[]
    requires skipped <==> s.annotation == Some(Digest(map[], ""))
    requires s' == if skipped then s else s.(status := map[], annotation := Some(Digest(map[], "")))
    ensures ValidConfig(cfg) && Next(cfg, s, ReconcileClients(None, "", Nobody(skipped)), s')
    ensures Completed(cfg, ViewOf(s), Nobody(skipped)) && StatusRewritable(map[])
    ensures ComputedBy(cfg, s, ReconcileClients(None, "", Nobody(skipped))).clients == map[]
  {
    hide *;
    NobodyMeans(skipped);
    InstanceMeans(cfg, pod);
    NobodyIsCarried(s);
    NobodySeen(cfg);
    NobodyNeedsNoPods(cfg, pod);
    NobodyPlaced(cfg, s, map[]);
    NobodyIsReported(ListedPods(cfg, s.pods));
    NobodyRegistered(cfg, s);
    SpawnedHere(cfg, pod);
    RegisteredHere(cfg, pod);
    ViewPods(s);
    CompletedIs(cfg, ViewOf(s), Nobody(skipped));
    assert s.used + {} == s.used;
    IsClientPass(cfg, s, Nobody(skipped), s');
    ComputedIs(cfg, s, ReconcileClients(None, "", Nobody(skipped)));
  }

  lemma NobodyMeans(skipped: bool)
    ensures Nobody(skipped) == Effects(map[], {}, {}, skipped, !skipped, !skipped, {})
  {}

  lemma IsOutdated(cfg: Config, pod: string)
    requires Instance(cfg, pod)
    ensures ValidConfig(cfg)
    ensures Next(cfg, Empty(), ReconcileClients(None, "", Nobody(false)), Noted())
    ensures Next(cfg, Noted(), SetClient("c", true), CameAfter())
    ensures Next(cfg, CameAfter(), ReconcileClients(None, "", NotAnnotated(pod)), Outdated(pod))
    ensures Next(cfg, Outdated(pod), RemoveClient("c"), Left(pod))
  {
    hide Instance, ValidConfig, Next, RegistrationsAfter, SeenAt, Spawned, AnnotatedSeen, Templates, WellNamed,
         SpawnedPod, PlacesNewcomers, Completed, Registered, StatusRewritable, ComputedBy, Nobody;
    InstanceMeans(cfg, pod);
    RegisteredHere(cfg, pod);
    AnnotatedIs(pod, DEFAULT_TIME);
    SeenDiffer(pod, DEFAULT_TIME, 10);
    NobodysPass(cfg, Empty(), pod, false, Noted());
    ClientSet(cfg, Noted(), true, CameAfter());
    FirstPlaced(cfg, CameAfter(), pod);
    OneClientPass(cfg, CameAfter(), pod, DEFAULT_TIME, NotAnnotated(pod), Outdated(pod));
    ClientRemoved(cfg, Outdated(pod), Left(pod));
  }

  lemma ClientRemoved(cfg: Config, s: State, s': State)
    requires ValidConfig(cfg) && s.clients == map["c" := true] && s' == s.(clients := map[])
    ensures Next(cfg, s, RemoveClient("c"), s')
  {
    hide ValidConfig;
    assert s.clients - {"c"} == map[];
  }

  /** A run from an initial state in which one annotation fails: the pass after it goes through, and leaves in the status a
      connected client who is no longer in the spec, because the hash of what it computed is still annotated. */
  lemma FailedAnnotation(cfg: Config, pod: string)
    requires Instance(cfg, pod)
    ensures ValidConfig(cfg) && Run(cfg, OutdatedStates(pod), OutdatedActions(pod))
    ensures var states, actions := OutdatedStates(pod), OutdatedActions(pod);
            && AnnotationCurrent(states[2]) && !AnnotationCurrent(states[3])
            && Completed(cfg, ViewOf(states[4]), actions[4].effects)
            && !Stored(cfg, states[4], actions[4], states[5])
            && states[5].clients == map[] && "c" in states[5].status && Connected(states[5].status["c"])
  {
    hide Instance, ValidConfig, Next, SeenAt, AnnotatedSeen, Completed, Init, Stored, StatusRewritable, ComputedBy;
    InstanceMeans(cfg, pod);
    EmptyIsInitial();
    IsOutdated(cfg, pod);
    SeenDiffer(pod, DEFAULT_TIME, 10);
    SeenIsConnected(pod);
    NobodysPass(cfg, Left(pod), pod, true, Left(pod));
    StoredIs(cfg, Left(pod), ReconcileClients(None, "", Nobody(true)), Left(pod));
    var states, actions := OutdatedStates(pod), OutdatedActions(pod);
    forall i | 0 <= i < |actions| ensures Next(cfg, states[i], actions[i], states[i + 1]) {
      assert i in {0, 1, 2, 3, 4};
    }
  }

  lemma SeenIsConnected(pod: string)
    ensures "c" in SeenAt(pod, DEFAULT_TIME) && Connected(SeenAt(pod, DEFAULT_TIME)["c"])
  {}
}
