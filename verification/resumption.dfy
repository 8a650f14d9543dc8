/** A client-pod pass that stopped is finished by the next one, and a finished pass is a fixed point. */
module Resumption {
  import opened Names
  import opened Model
  import opened SessionStatus
  import opened Placement
  import opened Allocator
  import opened RegistrationManager
  import opened ReadinessReport
  import opened ClientPods
  import opened Network
  import opened IngressLaws
  import opened System
  import opened Steps
  import opened SystemInvariant
  import opened PassLaws

  lemma NobodyJoined(cfg: Config, carried: Statuses, alloc: Statuses)
    requires Joined(cfg, carried, {}, alloc)
    ensures alloc == carried
  {}

  /** The second placement is the stored status of the first pass. */
  lemma SecondPlacement(cfg: Config, s: State, a1: Action, s1: State, a2: Action, s2: State)
    requires ValidConfig(cfg) && ClockFit(s.now, s.status)
    requires Next(cfg, s, a1, s1) && Stored(cfg, s, a1, s1)
    requires Next(cfg, s1, a2, s2) && a2.ReconcileClients?
    ensures a2.effects.alloc == s1.status
  {
    StoredMeans(cfg, s, a1, s1);
    ClientPassMeans(cfg, s, a1, s1);
    ClientPassMeans(cfg, s1, a2, s2);
    hide Next, Stored, PlacesNewcomers, StatusRewritable, Reported, WithSpawned, RegistrationsAfter, IdlePods, BusyPods,
         ListedPods, ComputedBy, Allocated, PodsMissing, Joined, Carried, Newcomers;
    var alloc := a1.effects.alloc;
    ReportedKeeps(ListedPods(cfg, s.pods), a1.ip, alloc);
    PlacementCarriesOver(cfg, s.used, GivenTo(s, a1.ip, a1.others), ViewOf(s), alloc, s1.status);
    PlacedJoins(cfg, s1.used, GivenTo(s1, a2.ip, a2.others), ViewOf(s1), a2.effects.alloc);
    NobodyJoined(cfg, s1.status, a2.effects.alloc);
  }

  lemma PlacedJoins(cfg: Config, used: set<string>, given: Inputs, before: View, alloc: Statuses)
    requires ValidConfig(cfg) && PlacesNewcomers(cfg, used, given, before, alloc)
    ensures Joined(cfg, Carried(given.now, cfg.timeoutSeconds, given.clients, before.status),
                   Newcomers(given.now, cfg.timeoutSeconds, given.clients, before.status), alloc)
  {
    hide Joined, FairlySourced, WithinCapacity, FewestPods;
  }

  lemma MissingAreAbsent(cfg: Config, s: State, ip: Option<string>, others: string, alloc: Statuses)
    requires ValidConfig(cfg) && Inv(cfg, s) && PlacesNewcomers(cfg, s.used, GivenTo(s, ip, others), ViewOf(s), alloc)
    ensures forall p :: p in PodsMissing(cfg, ViewOf(s), alloc) ==> p !in s.pods
  {
    hide AllPathsFit, ServicesKnown, RulesFit, MatchesPorts, RegistrationsFit, ClockFit, WellNamed, PodKnown, PlacesNewcomers,
         StatusFit, Allocated, ListedPods;
    KnownPodsFit(cfg, s.used, s.pods);
    PlacesMeans(cfg, s.used, GivenTo(s, ip, others), ViewOf(s), alloc);
    NamesWellFormed(cfg, alloc);
  }

  lemma SpawnedTwice(cfg: Config, pods: Pods, first: set<string>, rest: set<string>)
    ensures WithSpawned(cfg, WithSpawned(cfg, pods, first), rest) == WithSpawned(cfg, pods, first + rest)
  {
    hide SpawnedPod;
  }

  lemma RegisteredTwice(before: Registrations, idle1: set<string>, busy1: set<string>, idle: set<string>,
                        busy: set<string>, session: string, now: int)
    requires idle1 <= idle && busy1 <= busy && idle !! busy
    ensures RegistrationsAfter(RegistrationsAfter(before, idle1, busy1, session, now), idle, busy, session, now)
            == RegistrationsAfter(before, idle, busy, session, now)
  {}

  /** What is idle, busy and missing after the stopped pass, in terms of its placement. */
  lemma RestOfWork(cfg: Config, s: State, ip: Option<string>, alloc: Statuses, created: set<string>)
    requires ValidConfig(cfg) && StatusRewritable(alloc) && created <= PodsMissing(cfg, ViewOf(s), alloc)
    requires forall p :: p in created ==> p !in s.pods
    ensures var listed, pods := ListedPods(cfg, s.pods), WithSpawned(cfg, s.pods, created);
            var status := Reported(listed, ip, alloc);
            && IdlePods(status, ListedPods(cfg, pods)) == IdlePods(alloc, listed)
            && BusyPods(status) == BusyPods(alloc)
            && Allocated(status) - ListedPods(cfg, pods).Keys == PodsMissing(cfg, ViewOf(s), alloc) - created
  {
    var listed, pods := ListedPods(cfg, s.pods), WithSpawned(cfg, s.pods, created);
    var status := Reported(listed, ip, alloc);
    ReportedKeeps(listed, ip, alloc);
    ReportedUsers(listed, ip, alloc);
    ReadinessUnmoved(cfg, s.pods, created, ip, "");
    hide Reported, StatusRewritable, Users, HasConnectedUser, Allocated, ListedPods, WithSpawned, BusyPods;
    assert ListedPods(cfg, pods).Keys == listed.Keys + created;
    assert IdlePods(status, ListedPods(cfg, pods)) == IdlePods(alloc, ListedPods(cfg, pods));
  }

  /** Crash recovery: if a pass stops after its status is stored, the next pass at the same clock creates exactly the pods
      still missing, under the recorded names, and leaves what the first pass would have left. */
  lemma ResumeAfterWrite(cfg: Config, s: State, a1: Action, s1: State, a2: Action, s2: State)
    requires ValidConfig(cfg) && Inv(cfg, s)
    requires Next(cfg, s, a1, s1) && Stored(cfg, s, a1, s1)
    requires Next(cfg, s1, a2, s2) && a2.ReconcileClients? && a2.ip == a1.ip && a2.others == a1.others
    requires Completed(cfg, ViewOf(s1), a2.effects)
    ensures a2.effects.created == PodsMissing(cfg, ViewOf(s), a1.effects.alloc) - a1.effects.created
    ensures s2.status == s1.status && StatusRewritable(a1.effects.alloc)
    ensures Pass(cfg, s.used, GivenTo(s, a1.ip, a1.others), ViewOf(s),
                 Uninterrupted(cfg, GivenTo(s, a1.ip, a1.others), ViewOf(s), a1.effects.alloc), ViewOf(s2))
  {
    hide *;
    StoredMeans(cfg, s, a1, s1);
    InvMeans(cfg, s);
    var alloc, listed := a1.effects.alloc, ListedPods(cfg, s.pods);
    ClientPassMeans(cfg, s, a1, s1);
    ClientPassMeans(cfg, s1, a2, s2);
    CompletedMeans(cfg, s1, a2.effects);
    SecondPlacement(cfg, s, a1, s1, a2, s2);
    MissingAreAbsent(cfg, s, a1.ip, a1.others, alloc);
    RestOfWork(cfg, s, a1.ip, alloc, a1.effects.created);
    SecondComputes(cfg, s, a1, s1, a2);
    ComputedIs(cfg, s, a1);
    SpawnedTwice(cfg, s.pods, a1.effects.created, a2.effects.created);
    IdleNotBusy(alloc, listed);
    RegisteredTwice(s.registrations, a1.effects.idle, a1.effects.busy, IdlePods(alloc, listed), BusyPods(alloc),
                    cfg.session, s.now);
    assert a1.effects.created + a2.effects.created == PodsMissing(cfg, ViewOf(s), alloc);
    UninterruptedPass(cfg, s, a1, s2);
  }

  /** The second pass computes what the first one did, because the pods created in between are not ready. */
  lemma SecondComputes(cfg: Config, s: State, a1: Action, s1: State, a2: Action)
    requires a1.ReconcileClients? && StatusRewritable(a1.effects.alloc) && PlainAddress(a1.ip)
    requires s1.pods == WithSpawned(cfg, s.pods, a1.effects.created)
    requires a2.ReconcileClients? && a2.ip == a1.ip && a2.others == a1.others && StatusRewritable(a2.effects.alloc)
    requires a2.effects.alloc == Reported(ListedPods(cfg, s.pods), a1.ip, a1.effects.alloc)
    ensures ComputedBy(cfg, s1, a2) == ComputedBy(cfg, s, a1)
  {
    hide *;
    var listed, more := ListedPods(cfg, s.pods), ListedPods(cfg, s1.pods);
    forall p ensures PodIsReady(more, a1.ip, p) <==> PodIsReady(listed, a1.ip, p) {
      ReadinessUnmoved(cfg, s.pods, a1.effects.created, a1.ip, p);
    }
    ReportedTwice(listed, more, a1.ip, a1.effects.alloc);
    ComputedIs(cfg, s, a1);
    ComputedIs(cfg, s1, a2);
  }

  /** A state that fits the uninterrupted form of a pass is the outcome of it. */
  lemma UninterruptedPass(cfg: Config, s: State, a: Action, s': State)
    requires ValidConfig(cfg) && a.ReconcileClients? && StatusRewritable(a.effects.alloc)
    requires PlacesNewcomers(cfg, s.used, GivenTo(s, a.ip, a.others), ViewOf(s), a.effects.alloc)
    requires s'.annotation == Some(ComputedBy(cfg, s, a))
    requires s'.status == if s.annotation == Some(ComputedBy(cfg, s, a)) then s.status else ComputedBy(cfg, s, a).clients
    requires s'.pods == WithSpawned(cfg, s.pods, PodsMissing(cfg, ViewOf(s), a.effects.alloc))
    requires s'.registrations
             == RegistrationsAfter(s.registrations, IdlePods(a.effects.alloc, ListedPods(cfg, s.pods)),
                                   BusyPods(a.effects.alloc), cfg.session, s.now)
    ensures Pass(cfg, s.used, GivenTo(s, a.ip, a.others), ViewOf(s),
                 Uninterrupted(cfg, GivenTo(s, a.ip, a.others), ViewOf(s), a.effects.alloc), ViewOf(s'))
  {
    hide PlacesNewcomers, StatusRewritable, IdlePods, BusyPods, RegistrationsAfter, WithSpawned, Reported, ListedPods,
         PodsMissing;
  }

  lemma IdleNotBusy(status: Statuses, listed: Pods)
    ensures IdlePods(status, listed) !! BusyPods(status)
  {}

  /** Fixed point: with nothing changed since, the pass after one that went through and stored its status changes
      nothing. */
  lemma FinishedPassIsFixedPoint(cfg: Config, s: State, a1: Action, s1: State, a2: Action, s2: State)
    requires ValidConfig(cfg) && Inv(cfg, s)
    requires Next(cfg, s, a1, s1) && Stored(cfg, s, a1, s1) && Completed(cfg, ViewOf(s), a1.effects)
    requires Next(cfg, s1, a2, s2) && a2.ReconcileClients? && a2.ip == a1.ip && a2.others == a1.others
    requires Completed(cfg, ViewOf(s1), a2.effects)
    ensures a2.effects.created == {} && a2.effects.skipped && s2 == s1
  {
    hide *;
    StoredMeans(cfg, s, a1, s1);
    InvMeans(cfg, s);
    CompletedMeans(cfg, s, a1.effects);
    CompletedMeans(cfg, s1, a2.effects);
    ClientPassMeans(cfg, s, a1, s1);
    ClientPassMeans(cfg, s1, a2, s2);
    ResumeAfterWrite(cfg, s, a1, s1, a2, s2);
    SecondPlacement(cfg, s, a1, s1, a2, s2);
    SecondComputes(cfg, s, a1, s1, a2);
    ReportedKeeps(ListedPods(cfg, s.pods), a1.ip, a1.effects.alloc);
    MissingAreAbsent(cfg, s, a1.ip, a1.others, a1.effects.alloc);
    RestOfWork(cfg, s, a1.ip, a1.effects.alloc, a1.effects.created);
    IdleNotBusy(a1.effects.alloc, ListedPods(cfg, s.pods));
    RegisteredTwice(s.registrations, a1.effects.idle, a1.effects.busy, a2.effects.idle, a2.effects.busy, cfg.session,
                    s.now);
    NothingSpawnedYet(cfg, s1.pods);
    assert s1.used + Allocated(s1.status) == s1.used;
  }

  /** A placement with fewer spent names, and whatever the registrations. */
  lemma OlderNamesAreFresh(cfg: Config, used: set<string>, more: set<string>, given: Inputs, before: View, alloc: Statuses,
                           registrations: Registrations)
    requires ValidConfig(cfg) && PlacesNewcomers(cfg, used + more, given, before, alloc)
    ensures PlacesNewcomers(cfg, used, given, before.(registrations := registrations), alloc)
  {
    hide Joined, WithinCapacity, FewestPods, Allocated, ListedPods;
  }

  /** If a pass stops before writing the status, a finished pass at the same clock leaves the status, the annotation and the
      pods that some uninterrupted pass would have left, and registers the same pods. */
  lemma ResumeBeforeWrite(cfg: Config, s: State, a1: Action, s1: State, a2: Action, s2: State)
    requires ValidConfig(cfg) && Inv(cfg, s)
    requires Next(cfg, s, a1, s1) && a1.ReconcileClients? && !a1.effects.wrote && a1.effects.created == {}
    requires Next(cfg, s1, a2, s2) && a2.ReconcileClients? && Completed(cfg, ViewOf(s1), a2.effects)
    ensures StatusRewritable(a2.effects.alloc)
    ensures var given := GivenTo(s, a2.ip, a2.others);
            var effects := Uninterrupted(cfg, given, ViewOf(s), a2.effects.alloc);
            var registrations := RegistrationsAfter(s.registrations, effects.idle, effects.busy, cfg.session, s.now);
            && Pass(cfg, s.used, given, ViewOf(s), effects, View(s2.status, s2.annotation, s2.pods, registrations))
            && forall p :: p in Allocated(a2.effects.alloc) || p in ListedPods(cfg, s2.pods) ==>
                             (p in s2.registrations <==> p in registrations)
  {
    hide *;
    var alloc, listed := a2.effects.alloc, ListedPods(cfg, s.pods);
    ClientPassMeans(cfg, s, a1, s1);
    ClientPassMeans(cfg, s1, a2, s2);
    CompletedMeans(cfg, s1, a2.effects);
    NothingSpawnedYet(cfg, s.pods);
    OlderNamesAreFresh(cfg, s.used, Allocated(a1.effects.alloc), GivenTo(s1, a2.ip, a2.others), ViewOf(s1), alloc,
                       s.registrations);
    SameInputs(s, s1, a2.ip, a2.others);
    ComputedIs(cfg, s, a2);
    ComputedIs(cfg, s1, a2);
    var registrations := RegistrationsAfter(s.registrations, IdlePods(alloc, listed), BusyPods(alloc), cfg.session,
                                            s.now);
    SameViews(cfg, s, a2, s2, registrations);
    UninterruptedPass(cfg, s, a2, s2.(registrations := registrations));
    SameRegistered(s.registrations, a1.effects.idle, a1.effects.busy, alloc, listed, cfg.session, s.now);
    SpawnedAreAllocated(cfg, s, alloc);
  }

  lemma SameInputs(s: State, s1: State, ip: Option<string>, others: string)
    requires s1.status == s.status && s1.pods == s.pods && s1.clients == s.clients && s1.now == s.now
    requires s1.annotation == s.annotation
    ensures GivenTo(s1, ip, others) == GivenTo(s, ip, others)
    ensures ViewOf(s1).(registrations := s.registrations) == ViewOf(s)
  {}

  lemma SameViews(cfg: Config, s: State, a: Action, s2: State, registrations: Registrations)
    requires a.ReconcileClients? && StatusRewritable(a.effects.alloc)
    ensures ViewOf(s2.(registrations := registrations)) == View(s2.status, s2.annotation, s2.pods, registrations)
    ensures var effects := Uninterrupted(cfg, GivenTo(s, a.ip, a.others), ViewOf(s), a.effects.alloc);
            && effects.idle == IdlePods(a.effects.alloc, ListedPods(cfg, s.pods))
            && effects.busy == BusyPods(a.effects.alloc)
    ensures PodsMissing(cfg, ViewOf(s), a.effects.alloc) == Allocated(a.effects.alloc) - ListedPods(cfg, s.pods).Keys
  {
    hide IdlePods, BusyPods, ListedPods, Allocated, Computed, StatusRewritable;
  }

  lemma SameRegistered(before: Registrations, idle: set<string>, busy: set<string>, alloc: Statuses, listed: Pods,
                       session: string, now: int)
    ensures var first := RegistrationsAfter(before, idle, busy, session, now);
            var idle', busy' := IdlePods(alloc, listed), BusyPods(alloc);
            forall p :: p in Allocated(alloc) || p in listed ==>
                          (p in RegistrationsAfter(first, idle', busy', session, now) <==>
                           p in RegistrationsAfter(before, idle', busy', session, now))
  {
    hide Allocated, HasConnectedUser;
    IdleOrBusy(alloc, listed);
  }

  lemma IdleOrBusy(status: Statuses, listed: Pods)
    ensures forall p :: p in Allocated(status) || p in listed ==>
                          (p in IdlePods(status, listed) <==> p !in BusyPods(status))
    ensures IdlePods(status, listed) !! BusyPods(status)
  {}

  lemma SpawnedAreAllocated(cfg: Config, s: State, alloc: Statuses)
    ensures forall p :: p in ListedPods(cfg, WithSpawned(cfg, s.pods, PodsMissing(cfg, ViewOf(s), alloc))) ==>
                          p in ListedPods(cfg, s.pods) || p in Allocated(alloc)
  {
    hide Allocated;
  }
}
