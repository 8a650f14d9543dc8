/** A run from an initial state in which no write fails, and a collection that overlaps with a client-pod pass still deletes
    the pod of a connected client. */
module OverlapRun {
  import opened Names
  import opened Model
  import opened SessionStatus
  import opened PodIndex
  import opened Placement
  import opened RegistrationManager
  import opened ReadinessReport
  import opened ClientPods
  import opened SessionPods
  import opened GarbageCollector
  import opened Network
  import opened System
  import opened Steps
  import opened SystemInvariant
  import opened PassLaws
  import opened Grace
  import opened Reclamation
  import opened FailedWrites
  import opened Overlap
  import opened OverlapLaws

  /** Nothing holds a collection back once it has listed an overdue pod: it deletes it under whoever is connected, even when
      the pass that recorded that client deregistered the pod. */
  lemma OverlapDeletesBusyPod(cfg: Config, o: Shared, m: Move, o': Shared)
    requires ValidConfig(cfg) && RegistrationsFit(cfg, o.listed) && Moves(cfg, o, m, o') && m.DealWith? && m.done
    requires o.listed[m.name].kind == ReutilizeTimeout ||
             (o.listed[m.name].kind == Timeout && cfg.reutilizeTimeoutSeconds == 0)
    requires m.name in o.s.pods
    requires o.listed[m.name].created + cfg.timeoutSeconds + cfg.reutilizeTimeoutSeconds < o.s.now
    requires HasConnectedUser(o.s.status, m.name)
    ensures m.name !in o'.s.pods && HasConnectedUser(o'.s.status, m.name)
  {
    ConfigTimes(cfg);
    hide ValidConfig, TimesOf, HasConnectedUser;
  }

  // ---- the states ----

  function IdleLater(cfg: Config, pod: string): State {
    Idle(cfg, pod).(now := 16)
  }

  function BackLate(cfg: Config, pod: string): State {
    IdleLater(cfg, pod).(clients := map["c" := true])
  }

  /** Places the client, whose grace is over, on the idle pod and deregisters that. */
  function Reusing(pod: string): Effects {
    Effects(SeenAt(pod, DEFAULT_TIME), {}, {pod}, false, true, true, {})
  }

  function Reused(cfg: Config, pod: string): State {
    BackLate(cfg, pod).(status := SeenAt(pod, DEFAULT_TIME), annotation := AnnotatedSeen(pod, DEFAULT_TIME),
                        registrations := map[])
  }

  function Bereft(cfg: Config, pod: string): State {
    Reused(cfg, pod).(pods := map[])
  }

  function Respawned(cfg: Config, pod: string): State {
    Bereft(cfg, pod).(pods := Spawned(cfg, pod))
  }

  function OverlapStates(cfg: Config, pod: string): seq<Shared> {
    [Shared(Empty(), map[]), Shared(Came(), map[]), Shared(OnPod(cfg, pod), map[]), Shared(Lost(cfg, pod), map[]),
     Shared(Idle(cfg, pod), map[]), Shared(IdleLater(cfg, pod), map[]),
     Shared(IdleLater(cfg, pod), Registered(cfg, pod)), Shared(BackLate(cfg, pod), Registered(cfg, pod)),
     Shared(Reused(cfg, pod), Registered(cfg, pod)), Shared(Bereft(cfg, pod), map[]),
     Shared(Respawned(cfg, pod), map[])]
  }

  function OverlapMoves(pod: string): seq<Move> {
    [Other(SetClient("c", true)), Other(ReconcileClients(None, "", PlacedBy(pod))), Other(SetClient("c", false)),
     Other(ReconcileClients(None, "", NotedLost(pod))), Other(Tick(16)), List, Other(SetClient("c", true)),
     Other(ReconcileClients(None, "", Reusing(pod))), DealWith(pod, true, true),
     Other(ReconcileClients(None, "", SpawnedAgain(pod)))]
  }

  // ---- the moves ----

  /** The one client, expired meanwhile, placed on the one idle pod. */
  lemma ReusePlaced(cfg: Config, s: State, pod: string)
    requires Instance(cfg, pod) && s.clients == map["c" := true] && s.status == SeenAt(pod, 10) && s.now == 16
    requires s.pods == Spawned(cfg, pod)
    ensures ValidConfig(cfg)
    ensures PlacesNewcomers(cfg, s.used, GivenTo(s, None, ""), ViewOf(s), SeenAt(pod, DEFAULT_TIME))
  {
    hide *;
    InstanceMeans(cfg, pod);
    SeenFits(cfg, pod, DEFAULT_TIME);
    SeenNeedsOnePod(cfg, pod, DEFAULT_TIME, map[]);
    SeenIsFresh(cfg, pod);
    SeenUsers(pod, DEFAULT_TIME);
    OneReturns(s, pod);
    ListedHere(cfg, pod);
    OneIsReused(cfg, s, SeenAt(pod, DEFAULT_TIME), pod);
  }

  lemma OneReturns(s: State, pod: string)
    requires s.clients == map["c" := true] && s.status == SeenAt(pod, 10) && s.now == 16
    ensures Carried(s.now, 5, s.clients, s.status) == map[]
    ensures Newcomers(s.now, 5, s.clients, s.status) == {"c"}
  {
    assert s.status.Keys == {"c"} && s.status["c"].lastSeen == 10;
    assert Expired(16, 10, 5);
    hide Expired, NextSeen;
  }

  lemma OneIsReused(cfg: Config, s: State, alloc: Statuses, pod: string)
    requires ValidConfig(cfg) && WithinCapacity(cfg, alloc) && FewestPods(cfg, map[], alloc)
    requires alloc == SeenAt(pod, DEFAULT_TIME) && FreshEntry(cfg, SeenAt(pod, DEFAULT_TIME)["c"])
    requires Allocated(alloc) == {pod} && pod in ListedPods(cfg, s.pods)
    requires Carried(s.now, cfg.timeoutSeconds, s.clients, s.status) == map[]
    requires Newcomers(s.now, cfg.timeoutSeconds, s.clients, s.status) == {"c"}
    ensures PlacesNewcomers(cfg, s.used, GivenTo(s, None, ""), ViewOf(s), alloc)
  {
    hide WithinCapacity, FewestPods, FreshEntry, ValidConfig, ListedPods, Carried, Newcomers, Allocated;
  }

  lemma DeregisteredHere(cfg: Config, pod: string)
    ensures RegistrationsAfter(Registered(cfg, pod), {}, {pod}, cfg.session, 16) == map[]
  {}

  lemma IsReused(cfg: Config, pod: string)
    requires Instance(cfg, pod)
    ensures ValidConfig(cfg)
    ensures Next(cfg, Idle(cfg, pod), Tick(16), IdleLater(cfg, pod))
    ensures Next(cfg, IdleLater(cfg, pod), SetClient("c", true), BackLate(cfg, pod))
    ensures Next(cfg, BackLate(cfg, pod), ReconcileClients(None, "", Reusing(pod)), Reused(cfg, pod))
    ensures Completed(cfg, ViewOf(BackLate(cfg, pod)), Reusing(pod))
  {
    hide Instance, ValidConfig, Next, RegistrationsAfter, SeenAt, Spawned, AnnotatedSeen, Templates, WellNamed,
         SpawnedPod, PlacesNewcomers, Completed, Registered;
    InstanceMeans(cfg, pod);
    AnnotatedIs(pod, 10);
    AnnotatedIs(pod, DEFAULT_TIME);
    SeenDiffer(pod, 10, DEFAULT_TIME);
    SpawnedIsSome(cfg, pod);
    DeregisteredHere(cfg, pod);
    Ticks(cfg, Idle(cfg, pod), 16);
    ClientSet(cfg, IdleLater(cfg, pod), true, BackLate(cfg, pod));
    ReusePlaced(cfg, BackLate(cfg, pod), pod);
    OneClientPass(cfg, BackLate(cfg, pod), pod, DEFAULT_TIME, Reusing(pod), Reused(cfg, pod));
  }

  lemma IsDealtWith(cfg: Config, pod: string)
    requires Instance(cfg, pod) && ValidConfig(cfg)
    ensures Moves(cfg, Shared(Reused(cfg, pod), Registered(cfg, pod)), DealWith(pod, true, true),
                  Shared(Bereft(cfg, pod), map[]))
  {
    hide Instance, ValidConfig, SpawnedPod, Templates, TemplateOf, WellNamed, SeenAt, AnnotatedSeen, Next;
    InstanceMeans(cfg, pod);
    ConfigTimes(cfg);
    hide TimesOf;
    assert Registered(cfg, pod) - {pod} == map[] && Spawned(cfg, pod) - {pod} == map[];
    assert pod in Spawned(cfg, pod);
  }

  lemma IsRespawned(cfg: Config, pod: string)
    requires Instance(cfg, pod)
    ensures ValidConfig(cfg)
    ensures Next(cfg, Bereft(cfg, pod), ReconcileClients(None, "", SpawnedAgain(pod)), Respawned(cfg, pod))
    ensures Completed(cfg, ViewOf(Bereft(cfg, pod)), SpawnedAgain(pod))
  {
    hide Instance, ValidConfig, Next, RegistrationsAfter, SeenAt, Spawned, AnnotatedSeen, Templates, WellNamed,
         SpawnedPod, PlacesNewcomers, Completed, Registered;
    InstanceMeans(cfg, pod);
    RegisteredHere(cfg, pod);
    SameClientPlaced(cfg, Bereft(cfg, pod), pod, DEFAULT_TIME, DEFAULT_TIME);
    OneClientPass(cfg, Bereft(cfg, pod), pod, DEFAULT_TIME, SpawnedAgain(pod), Respawned(cfg, pod));
  }

  lemma FirstPassesFinish(cfg: Config, pod: string)
    requires Instance(cfg, pod)
    ensures Completed(cfg, ViewOf(Came()), PlacedBy(pod)) && Completed(cfg, ViewOf(Lost(cfg, pod)), NotedLost(pod))
  {
    hide *;
    FirstTwo(cfg, pod);
    MissingHere(cfg, Came(), pod, DEFAULT_TIME);
    MissingHere(cfg, Lost(cfg, pod), pod, 10);
    SpawnedIsSome(cfg, pod);
    IdleHere(cfg, map[], pod, DEFAULT_TIME);
    IdleHere(cfg, Spawned(cfg, pod), pod, 10);
    ViewPods(Came());
    ViewPods(Lost(cfg, pod));
    CompletedIs(cfg, ViewOf(Came()), PlacedBy(pod));
    CompletedIs(cfg, ViewOf(Lost(cfg, pod)), NotedLost(pod));
  }

  lemma FirstTwo(cfg: Config, pod: string)
    ensures Came().pods == map[] && Lost(cfg, pod).pods == Spawned(cfg, pod) && 10 != DEFAULT_TIME
    ensures PlacedBy(pod) == Effects(SeenAt(pod, DEFAULT_TIME), {}, {pod}, false, true, true, {pod})
    ensures NotedLost(pod) == Effects(SeenAt(pod, 10), {pod}, {}, false, true, true, {})
  {}

  /** A run from an initial state in which every pass goes through and grace holds throughout. The client comes back after
      its grace while a collection is under way; a pass places it on the idle pod again and deregisters that; the
      collection deletes the pod all the same, and the next pass spawns it anew under its name. */
  lemma OverlappingCollection(cfg: Config, pod: string)
    requires Instance(cfg, pod)
    ensures ValidConfig(cfg) && SharedRun(cfg, OverlapStates(cfg, pod), OverlapMoves(pod))
    ensures AllFinished(cfg, OverlapStates(cfg, pod), OverlapMoves(pod), 10)
    ensures SharedGraceful(cfg, OverlapStates(cfg, pod), OverlapMoves(pod), 10)
    ensures var states := OverlapStates(cfg, pod);
            && pod !in states[8].s.registrations && pod in states[8].s.pods && pod !in states[9].s.pods
            && "c" in states[9].s.clients && states[9].s.clients["c"] && HasConnectedUser(states[9].s.status, pod)
            && pod in states[10].s.pods
  {
    hide Instance, ValidConfig, Next, Deals, SeenAt, Spawned, AnnotatedSeen, Registered, Completed, HasConnectedUser,
         Init, SharedGraceful;
    InstanceMeans(cfg, pod);
    EmptyIsInitial();
    Comes(cfg, pod);
    IsLostAndReturns(cfg, pod);
    IsReused(cfg, pod);
    IsDealtWith(cfg, pod);
    IsRespawned(cfg, pod);
    FirstPassesFinish(cfg, pod);
    SpawnedIsSome(cfg, pod);
    SeenUsers(pod, DEFAULT_TIME);
    var states, moves := OverlapStates(cfg, pod), OverlapMoves(pod);
    DeletedWhileBusy(cfg, pod);
    forall i | 0 <= i < |moves| ensures Moves(cfg, states[i], moves[i], states[i + 1]) {
      assert i in {0, 1, 2, 3, 4, 5, 6, 7, 8, 9};
    }
    forall i | 0 <= i < 10 && moves[i].Other? ensures Finished(cfg, states[i].s, moves[i].a) {
      assert i in {0, 1, 2, 3, 4, 5, 6, 7, 8, 9};
    }
    FinishedSharedRunIsGraceful(cfg, states, moves, 10);
  }

  lemma DeletedWhileBusy(cfg: Config, pod: string)
    requires Instance(cfg, pod)
    ensures pod !in Bereft(cfg, pod).pods && HasConnectedUser(Bereft(cfg, pod).status, pod)
  {
    hide *;
    InstanceMeans(cfg, pod);
    IsDealtWith(cfg, pod);
    SeenUsers(pod, DEFAULT_TIME);
    ReusedAre(cfg, pod);
    OverlapDeletesBusyPod(cfg, Shared(Reused(cfg, pod), Registered(cfg, pod)), DealWith(pod, true, true),
                          Shared(Bereft(cfg, pod), map[]));
  }

  lemma ReusedAre(cfg: Config, pod: string)
    ensures var s, listed := Reused(cfg, pod), Registered(cfg, pod);
            && s.now == 16 && s.status == SeenAt(pod, DEFAULT_TIME) && pod in s.pods
            && RegistrationsFit(cfg, listed) && pod in listed && listed[pod] == Registration(cfg.session, 10, Timeout)
  {
    hide SeenAt, SpawnedPod, AnnotatedSeen;
  }
}
