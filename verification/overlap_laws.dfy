/** Grace with overlap: what can be known before a pass, what holds over runs, and that deleted pods stay away. */
module OverlapLaws {
  import opened Names
  import opened Model
  import opened SessionStatus
  import opened Placement
  import opened RegistrationManager
  import opened ReadinessReport
  import opened ClientPods
  import opened GarbageCollector
  import opened Network
  import opened System
  import opened Steps
  import opened SystemInvariant
  import opened PassLaws
  import opened StatusGate
  import opened Grace
  import opened Reclamation
  import opened Resurrection
  import opened RunLaws
  import opened Overlap

  // ---- what can be known before the pass ----

  /** The clients a pass must place fit on the pods of this template that are carried over. */
  ghost predicate HasRoom(cfg: Config, s: State, template: string)
    requires ValidConfig(cfg)
  {
    template in Templates(cfg) ==>
      var carried := Carried(s.now, cfg.timeoutSeconds, s.clients, s.status);
      |Newcomers(s.now, cfg.timeoutSeconds, s.clients, s.status)|
      <= FreeSlots(carried, Templates(cfg)[template].maxClients, PodsOf(carried, template))
  }

  /** Once everybody's grace on a listed pod is over, nobody on it is carried over. */
  lemma OverdueIsNotCarried(cfg: Config, now: int, clients: map<string, bool>, status: Statuses, listed: Registrations,
                            pod: string)
    requires pod in listed && ListedGrace(status, listed, pod) && listed[pod].created + cfg.timeoutSeconds <= now
    ensures pod !in Allocated(Carried(now, cfg.timeoutSeconds, clients, status))
  {
    forall c | c in status && pod in status[c].pods ensures Expired(now, status[c].lastSeen, cfg.timeoutSeconds) {}
    hide Expired, NextSeen, ListedGrace;
  }

  /** What a pass opens, in terms of the placement it chose. */
  lemma OpenedBy(cfg: Config, s: State, a: Action, s': State, template: string)
    requires ValidConfig(cfg) && Inv(cfg, s) && Next(cfg, s, a, s') && a.ReconcileClients? && template in Templates(cfg)
    ensures var carried := Carried(s.now, cfg.timeoutSeconds, s.clients, s.status);
            HasRoom(cfg, s, template) <==> PodsOf(a.effects.alloc, template) <= PodsOf(carried, template)
  {
    hide *;
    var carried := Carried(s.now, cfg.timeoutSeconds, s.clients, s.status);
    var newcomers := Newcomers(s.now, cfg.timeoutSeconds, s.clients, s.status);
    InvMeans(cfg, s);
    ClientPassMeans(cfg, s, a, s');
    PlacesIsPlaced(cfg, s, a.ip, a.others, a.effects.alloc);
    CarriedIsFit(cfg, s.used, s.status, s.now, s.clients);
    StatusFitMeans(cfg, s.used, carried);
    CarriedAreNotNew(s.now, cfg.timeoutSeconds, s.clients, s.status);
    PodsOpened(cfg, carried, newcomers, ListedPods(cfg, s.pods), s.used, a.effects.alloc, template);
    RoomMeans(cfg, s, template);
    NothingOpened(PodsOf(a.effects.alloc, template), PodsOf(carried, template));
    SomethingOpened(|newcomers| - FreeSlots(carried, Templates(cfg)[template].maxClients, PodsOf(carried, template)),
                    cfg, template);
  }

  lemma RoomMeans(cfg: Config, s: State, template: string)
    requires ValidConfig(cfg) && template in Templates(cfg)
    ensures var carried := Carried(s.now, cfg.timeoutSeconds, s.clients, s.status);
            HasRoom(cfg, s, template) <==>
            |Newcomers(s.now, cfg.timeoutSeconds, s.clients, s.status)|
            <= FreeSlots(carried, Templates(cfg)[template].maxClients, PodsOf(carried, template))
  {
    hide Templates, Carried, Newcomers, FreeSlots, PodsOf, ValidConfig;
  }

  lemma NothingOpened(after: set<string>, before: set<string>)
    ensures |after - before| == 0 <==> after <= before
  {
    var more := after - before;
    assert |more| == 0 <==> more == {};
    assert more == {} ==> forall p :: p in after ==> p !in more;
    assert after <= before ==> forall p :: p !in more;
  }

  lemma SomethingOpened(n: int, cfg: Config, template: string)
    requires ValidConfig(cfg) && template in Templates(cfg)
    ensures Templates(cfg)[template].maxClients >= 1
    ensures n > 0 ==> CeilDiv(n, Templates(cfg)[template].maxClients) > 0
  {
    hide Templates;
  }

  /** Only reuse endangers a listed pod whose users' grace is over: while the newcomers fit on other pods, no pass takes
      it, and it stays safe to delete. */
  lemma PassWithRoom(cfg: Config, s: State, a: Action, s': State, listed: Registrations, pod: string)
    requires ValidConfig(cfg) && Inv(cfg, s) && Next(cfg, s, a, s') && a.ReconcileClients?
    requires pod in listed && ListedGrace(s.status, listed, pod) && listed[pod].created + cfg.timeoutSeconds <= s.now
    requires HasRoom(cfg, s, TemplateOf(pod))
    ensures pod !in Allocated(a.effects.alloc) && ListedGrace(s'.status, listed, pod)
  {
    hide *;
    OverdueIsNotCarried(cfg, s.now, s.clients, s.status, listed, pod);
    var carried := Carried(s.now, cfg.timeoutSeconds, s.clients, s.status);
    PlacedTemplates(cfg, s, a, s');
    if TemplateOf(pod) in Templates(cfg) {
      OpenedBy(cfg, s, a, s', TemplateOf(pod));
    }
    OfItsTemplate(a.effects.alloc, pod);
    OfItsTemplate(carried, pod);
    PassDuringCollection(cfg, s, a, s', listed, pod);
    WrittenUsers(cfg, s, a, s', pod);
  }

  lemma OfItsTemplate(status: Statuses, pod: string)
    ensures pod in PodsOf(status, TemplateOf(pod)) <==> pod in Allocated(status)
  {
    hide Allocated, TemplateOf;
  }

  lemma PlacedTemplates(cfg: Config, s: State, a: Action, s': State)
    requires ValidConfig(cfg) && Inv(cfg, s) && Next(cfg, s, a, s') && a.ReconcileClients?
    ensures forall p :: p in Allocated(a.effects.alloc) ==> TemplateOf(p) in Templates(cfg)
  {
    hide *;
    InvMeans(cfg, s);
    ClientPassMeans(cfg, s, a, s');
    ViewsAre(s, a.ip, a.others);
    KnownPodsFit(cfg, s.used, s.pods);
    PlacesMeans(cfg, s.used, GivenTo(s, a.ip, a.others), ViewOf(s), a.effects.alloc);
    NamesWellFormed(cfg, a.effects.alloc);
  }

  /** Who is recorded as connected after a written pass. */
  lemma WrittenUsers(cfg: Config, s: State, a: Action, s': State, pod: string)
    requires ValidConfig(cfg) && Next(cfg, s, a, s') && a.ReconcileClients?
    ensures a.effects.wrote ==> (HasConnectedUser(s'.status, pod) <==> HasConnectedUser(a.effects.alloc, pod))
    ensures HasConnectedUser(a.effects.alloc, pod) ==> pod in Allocated(a.effects.alloc)
  {
    hide *;
    ClientPassMeans(cfg, s, a, s');
    ComputedIs(cfg, s, a);
    ReportedUsers(ListedPods(cfg, s.pods), a.ip, a.effects.alloc);
    ConnectedIsAllocated(a.effects.alloc, pod);
  }

  /** The listed pod is the only one of its template in the cluster that nobody is carried over on. */
  ghost predicate OnlyIdle(cfg: Config, s: State, pod: string) {
    var carried := Carried(s.now, cfg.timeoutSeconds, s.clients, s.status);
    && pod in ListedPods(cfg, s.pods)
    && forall q :: q in ListedPods(cfg, s.pods) && TemplateOf(q) == TemplateOf(pod) && q != pod ==> q in Allocated(carried)
  }

  /** And if it is the only idle pod of its template, a written pass leaves it safe to delete exactly when there is room
      elsewhere, which the spec and the status tell before the pass. */
  lemma ReuseDuringCollection(cfg: Config, s: State, a: Action, s': State, listed: Registrations, pod: string)
    requires ValidConfig(cfg) && Inv(cfg, s) && Next(cfg, s, a, s') && a.ReconcileClients? && a.effects.wrote
    requires pod in listed && ListedGrace(s.status, listed, pod) && listed[pod].created + cfg.timeoutSeconds <= s.now
    requires OnlyIdle(cfg, s, pod) && TemplateOf(pod) in Templates(cfg)
    ensures ListedGrace(s'.status, listed, pod) <==> HasRoom(cfg, s, TemplateOf(pod))
  {
    hide *;
    if HasRoom(cfg, s, TemplateOf(pod)) {
      PassWithRoom(cfg, s, a, s', listed, pod);
    } else {
      OverdueIsNotCarried(cfg, s.now, s.clients, s.status, listed, pod);
      OpenedBy(cfg, s, a, s', TemplateOf(pod));
      ClientPassMeans(cfg, s, a, s');
      PlacesIsPlaced(cfg, s, a.ip, a.others, a.effects.alloc);
      var carried := Carried(s.now, cfg.timeoutSeconds, s.clients, s.status);
      OnlyIdleIsTaken(cfg, s, carried, Newcomers(s.now, cfg.timeoutSeconds, s.clients, s.status), a.effects.alloc, pod);
      PassDuringCollection(cfg, s, a, s', listed, pod);
      WrittenUsers(cfg, s, a, s', pod);
    }
  }

  lemma OnlyIdleIsTaken(cfg: Config, s: State, carried: Statuses, newcomers: set<string>, alloc: Statuses, pod: string)
    requires ValidConfig(cfg) && Placed(cfg, carried, newcomers, ListedPods(cfg, s.pods), s.used, alloc)
    requires carried == Carried(s.now, cfg.timeoutSeconds, s.clients, s.status)
    requires OnlyIdle(cfg, s, pod) && pod !in Allocated(carried)
    requires !(PodsOf(alloc, TemplateOf(pod)) <= PodsOf(carried, TemplateOf(pod)))
    ensures HasConnectedUser(alloc, pod)
  {
    hide WithinCapacity, FewestPods, OnePerTemplate, FreshPodStatus, ListedPods, TemplateOf, Carried, ValidConfig;
    var p :| p in PodsOf(alloc, TemplateOf(pod)) && p !in PodsOf(carried, TemplateOf(pod));
    assert p !in Allocated(carried);
    assert pod in Allocated(alloc);
    forall d | d in carried ensures pod !in carried[d].pods {}
    var c :| c in alloc && pod in alloc[c].pods;
    assert FreshEntry(cfg, alloc[c]);
  }

  // ---- runs ----

  /** At some point of the run grace held, and every client-pod pass from there to state `i` kept it. */
  ghost predicate SharedGraceful(cfg: Config, states: seq<Shared>, moves: seq<Move>, i: nat)
    requires ValidConfig(cfg)
  {
    && SharedRun(cfg, states, moves) && i < |states|
    && exists g: nat :: g <= i && SharedGraceKept(states, moves, g, i)
  }

  ghost predicate SharedGraceKept(states: seq<Shared>, moves: seq<Move>, g: nat, i: nat)
    requires g <= i < |states| && |states| == |moves| + 1
  {
    && GraceHolds(states[g].s.status, states[g].s.registrations)
    && forall k :: g <= k < i && moves[k].Other? && moves[k].a.ReconcileClients? ==>
                     KeepsGrace(states[k].s, moves[k].a.effects)
  }

  lemma DealingKeepsGrace(cfg: Config, s: State, name: string, registration: Registration, podGone: bool, done: bool,
                          s': State)
    requires GraceHolds(s.status, s.registrations) && Deals(cfg, s, name, registration, podGone, done, s')
    ensures GraceHolds(s'.status, s'.registrations)
  {
    hide Judge;
  }

  lemma MoveKeepsGrace(cfg: Config, o: Shared, m: Move, o': Shared)
    requires ValidConfig(cfg) && Inv(cfg, o.s) && Moves(cfg, o, m, o') && GraceHolds(o.s.status, o.s.registrations)
    requires m.Other? && m.a.ReconcileClients? ==> KeepsGrace(o.s, m.a.effects)
    ensures GraceHolds(o'.s.status, o'.s.registrations)
  {
    hide Inv, Next, Deals, ValidConfig, GraceHolds, KeepsGrace;
    match m
    case Other(a) => StepKeepsGrace(cfg, o.s, a, o'.s);
    case List =>
    case DealWith(name, podGone, done) => DealingKeepsGrace(cfg, o.s, name, o.listed[name], podGone, done, o'.s);
  }

  lemma {:induction false} SharedGraceStays(cfg: Config, states: seq<Shared>, moves: seq<Move>, g: nat, i: nat)
    requires ValidConfig(cfg) && SharedRun(cfg, states, moves) && g <= i < |states|
    requires SharedGraceKept(states, moves, g, i)
    ensures GraceHolds(states[i].s.status, states[i].s.registrations)
  {
    hide Moves, Inv, ValidConfig, KeepsGrace;
    if g < i {
      assert SharedGraceKept(states, moves, g, i - 1);
      SharedGraceStays(cfg, states, moves, g, i - 1);
      SharedRunKeepsInv(cfg, states, moves, i - 1);
      MoveKeepsGrace(cfg, states[i - 1], moves[i - 1], states[i]);
    }
  }

  /** Grace holds also where collections overlap with passes, as long as each of these keeps it. */
  lemma SharedRunKeepsGrace(cfg: Config, states: seq<Shared>, moves: seq<Move>, i: nat)
    requires ValidConfig(cfg) && SharedGraceful(cfg, states, moves, i)
    ensures GraceHolds(states[i].s.status, states[i].s.registrations)
  {
    hide ValidConfig, Moves, SharedGraceKept, GraceHolds;
    var g: nat :| g <= i && SharedGraceKept(states, moves, g, i);
    SharedGraceStays(cfg, states, moves, g, i);
  }

  ghost predicate AllFinished(cfg: Config, states: seq<Shared>, moves: seq<Move>, i: nat)
    requires i < |states| && |states| == |moves| + 1
  {
    forall k :: 0 <= k < i && moves[k].Other? ==> Finished(cfg, states[k].s, moves[k].a)
  }

  lemma MoveKeepsCurrent(cfg: Config, o: Shared, m: Move, o': Shared)
    requires ValidConfig(cfg) && Moves(cfg, o, m, o') && AnnotationCurrent(o.s)
    requires m.Other? ==> Finished(cfg, o.s, m.a)
    ensures AnnotationCurrent(o'.s)
    ensures m.Other? && m.a.ReconcileClients? ==> KeepsGrace(o.s, m.a.effects)
  {
    hide Next, ValidConfig, Completed, Judge, KeepsGrace;
    if m.Other? {
      StepKeepsCurrent(cfg, o.s, m.a, o'.s);
      if m.a.ReconcileClients? {
        CompletedMeans(cfg, o.s, m.a.effects);
        ClientPassMeans(cfg, o.s, m.a, o'.s);
        CurrentAnnotationStores(cfg, o.s, m.a, o'.s);
        FinishedKeepsGrace(cfg, o.s, m.a, o'.s);
      }
    }
  }

  lemma {:induction false} FinishedMovesKeepGrace(cfg: Config, states: seq<Shared>, moves: seq<Move>, i: nat)
    requires ValidConfig(cfg) && SharedRun(cfg, states, moves) && i < |states| && AllFinished(cfg, states, moves, i)
    ensures AnnotationCurrent(states[i].s)
    ensures forall k :: 0 <= k < i && moves[k].Other? && moves[k].a.ReconcileClients? ==>
                          KeepsGrace(states[k].s, moves[k].a.effects)
  {
    hide Moves, ValidConfig, Completed, KeepsGrace, AnnotationCurrent;
    if i == 0 {
      StartsCurrent(states[0].s);
    } else {
      FinishedMovesKeepGrace(cfg, states, moves, i - 1);
      assert moves[i - 1].Other? ==> Finished(cfg, states[i - 1].s, moves[i - 1].a);
      MoveKeepsCurrent(cfg, states[i - 1], moves[i - 1], states[i]);
    }
  }

  lemma StartsCurrent(s: State)
    requires Init(s)
    ensures AnnotationCurrent(s) && GraceHolds(s.status, s.registrations)
  {}

  /** Runs whose client-pod passes all go through are graceful throughout, with overlap as well. */
  lemma FinishedSharedRunIsGraceful(cfg: Config, states: seq<Shared>, moves: seq<Move>, i: nat)
    requires ValidConfig(cfg) && SharedRun(cfg, states, moves) && i < |states| && AllFinished(cfg, states, moves, i)
    ensures SharedGraceful(cfg, states, moves, i)
  {
    hide Moves, ValidConfig, Finished, KeepsGrace, Init, GraceHolds;
    FinishedMovesKeepGrace(cfg, states, moves, i);
    StartsCurrent(states[0].s);
    assert SharedGraceKept(states, moves, 0, i);
  }

  lemma {:induction false} ListedGraceStays(cfg: Config, states: seq<Shared>, moves: seq<Move>, i: nat, j: nat, pod: string)
    requires ValidConfig(cfg) && SharedGraceful(cfg, states, moves, i) && i < j < |states| && moves[i].List?
    requires forall k :: i < k < j ==> !moves[k].List? && LeavesUnused(moves[k], states[k + 1], pod)
    ensures ListedGrace(states[j].s.status, states[j].listed, pod)
    decreases j
  {
    hide ValidConfig, GraceHolds, ListedGrace, LeavesUnused, SharedGraceKept;
    if i + 1 == j {
      SharedRunKeepsGrace(cfg, states, moves, i);
      ListingHasGrace(states[i], pod);
    } else {
      ListedGraceStays(cfg, states, moves, i, j - 1, pod);
      MoveKeepsListedGrace(cfg, states[j - 1], moves[j - 1], states[j], pod);
    }
  }

  /** A run in which a collection listed the registrations at `i` and is still under way at `j`, and nobody was recorded as
      connected to the pod in between. */
  ghost predicate UnusedSinceListing(cfg: Config, states: seq<Shared>, moves: seq<Move>, i: nat, j: nat, pod: string)
    requires ValidConfig(cfg)
  {
    && SharedGraceful(cfg, states, moves, i) && i < j < |states| && moves[i].List?
    && forall k :: i < k < j ==> !moves[k].List? && LeavesUnused(moves[k], states[k + 1], pod)
  }

  /** Grace safety with overlap: if grace was kept up to the listing, and no status written since records anybody connected
      to the pod, then deleting it hits only clients who have been away for longer than both periods. */
  lemma OverlapSafety(cfg: Config, states: seq<Shared>, moves: seq<Move>, i: nat, j: nat, pod: string, client: string)
    requires ValidConfig(cfg) && UnusedSinceListing(cfg, states, moves, i, j, pod)
    requires j < |moves| && moves[j].DealWith? && j + 1 < |states|
    requires pod in states[j].s.pods && pod !in states[j + 1].s.pods
    requires client in states[j].s.status && pod in states[j].s.status[client].pods
    ensures var entry, now := states[j].s.status[client], states[j].s.now;
            && !Connected(entry)
            && entry.lastSeen + cfg.timeoutSeconds + cfg.reutilizeTimeoutSeconds < now
  {
    ListedGraceStays(cfg, states, moves, i, j, pod);
    SharedRunKeepsInv(cfg, states, moves, j);
    hide Inv, ValidConfig, Next, HasConnectedUser, LeavesUnused, SharedGraceful;
    DeletedWasListed(cfg, states[j], moves[j], states[j + 1], pod);
  }

  /** The pass finds room for its newcomers without the pod, or does not write. */
  ghost predicate RoomWithout(cfg: Config, o: Shared, m: Move, pod: string)
    requires ValidConfig(cfg)
  {
    m.Other? && m.a.ReconcileClients? && m.a.effects.wrote ==> HasRoom(cfg, o.s, TemplateOf(pod))
  }

  lemma TimePasses(cfg: Config, o: Shared, m: Move, o': Shared)
    requires ValidConfig(cfg) && Moves(cfg, o, m, o')
    ensures o'.s.now >= o.s.now
  {
    hide ValidConfig, Next, Judge;
    if m.Other? {
      OthersKeepRegistration(cfg, o.s, m.a, o'.s, "");
    }
  }

  lemma RoomLeavesUnused(cfg: Config, o: Shared, m: Move, o': Shared, pod: string)
    requires ValidConfig(cfg) && Inv(cfg, o.s) && Moves(cfg, o, m, o') && RoomWithout(cfg, o, m, pod)
    requires pod in o.listed && ListedGrace(o.s.status, o.listed, pod)
    requires o.listed[pod].created + cfg.timeoutSeconds <= o.s.now
    ensures LeavesUnused(m, o', pod)
  {
    hide ValidConfig, Inv, Next, HasRoom, ListedGrace, HasConnectedUser;
    if m.Other? && m.a.ReconcileClients? && m.a.effects.wrote {
      PassWithRoom(cfg, o.s, m.a, o'.s, o.listed, pod);
      PassDuringCollection(cfg, o.s, m.a, o'.s, o.listed, pod);
    }
  }

  lemma {:induction false} RoomKeepsUnused(cfg: Config, states: seq<Shared>, moves: seq<Move>, i: nat, j: nat, pod: string)
    requires ValidConfig(cfg) && SharedGraceful(cfg, states, moves, i) && i < j < |states| && moves[i].List?
    requires forall k :: i < k < j ==> !moves[k].List? && RoomWithout(cfg, states[k], moves[k], pod)
    requires pod in states[j].listed && pod in states[i].s.registrations
    requires states[i].s.registrations[pod].created + cfg.timeoutSeconds <= states[i].s.now
    ensures UnusedSinceListing(cfg, states, moves, i, j, pod)
    ensures states[j].listed[pod] == states[i].s.registrations[pod] && states[i].s.now <= states[j].s.now
    decreases j
  {
    hide *;
    GracefulIsRun(cfg, states, moves, i);
    TimePasses(cfg, states[j - 1], moves[j - 1], states[j]);
    if i + 1 == j {
      JustListed(cfg, states, moves, i, pod);
    } else {
      StillListed(cfg, states[j - 1], moves[j - 1], states[j], pod);
      RoomKeepsUnused(cfg, states, moves, i, j - 1, pod);
      UnusedMeans(cfg, states, moves, i, j - 1, pod);
      ListedGraceStays(cfg, states, moves, i, j - 1, pod);
      SharedRunKeepsInv(cfg, states, moves, j - 1);
      SharedInvMeans(cfg, states[j - 1]);
      RoomLeavesUnused(cfg, states[j - 1], moves[j - 1], states[j], pod);
      UnusedMeans(cfg, states, moves, i, j, pod);
    }
  }

  lemma UnusedMeans(cfg: Config, states: seq<Shared>, moves: seq<Move>, i: nat, j: nat, pod: string)
    requires ValidConfig(cfg) && SharedGraceful(cfg, states, moves, i) && |states| == |moves| + 1
    requires i < j < |states| && moves[i].List?
    ensures UnusedSinceListing(cfg, states, moves, i, j, pod) <==>
            forall k :: i < k < j ==> !moves[k].List? && LeavesUnused(moves[k], states[k + 1], pod)
  {
    hide ValidConfig, SharedGraceful, LeavesUnused;
  }

  lemma JustListed(cfg: Config, states: seq<Shared>, moves: seq<Move>, i: nat, pod: string)
    requires ValidConfig(cfg) && SharedGraceful(cfg, states, moves, i) && i < |moves| && i + 1 < |states| && moves[i].List?
    ensures UnusedSinceListing(cfg, states, moves, i, i + 1, pod)
    ensures states[i + 1].listed == states[i].s.registrations && states[i + 1].s == states[i].s
  {
    GracefulIsRun(cfg, states, moves, i);
    hide ValidConfig, SharedGraceful, LeavesUnused, SharedRun;
  }

  lemma StillListed(cfg: Config, o: Shared, m: Move, o': Shared, pod: string)
    requires ValidConfig(cfg) && Moves(cfg, o, m, o') && !m.List? && pod in o'.listed
    ensures pod in o.listed && o'.listed[pod] == o.listed[pod]
  {
    hide ValidConfig, Next, Deals;
  }

  /** The same from what can be known beforehand: if the first period of the pod was over at the listing and each later pass
      found room for its newcomers without it, the deletion is safe. */
  lemma OverlapSafetyByRoom(cfg: Config, states: seq<Shared>, moves: seq<Move>, i: nat, j: nat, pod: string,
                            client: string)
    requires ValidConfig(cfg) && SharedGraceful(cfg, states, moves, i) && i < j < |moves| && moves[i].List?
    requires forall k :: i < k < j ==> !moves[k].List? && RoomWithout(cfg, states[k], moves[k], pod)
    requires pod in states[i].s.registrations
    requires states[i].s.registrations[pod].created + cfg.timeoutSeconds <= states[i].s.now
    requires moves[j].DealWith? && j + 1 < |states| && pod in states[j].s.pods && pod !in states[j + 1].s.pods
    requires client in states[j].s.status && pod in states[j].s.status[client].pods
    ensures var entry, now := states[j].s.status[client], states[j].s.now;
            && !Connected(entry)
            && entry.lastSeen + cfg.timeoutSeconds + cfg.reutilizeTimeoutSeconds < now
  {
    hide ValidConfig, Inv, SharedGraceful, RoomWithout, UnusedSinceListing;
    GracefulIsRun(cfg, states, moves, i);
    SharedRunKeepsInv(cfg, states, moves, j);
    DeletedWasListed(cfg, states[j], moves[j], states[j + 1], pod);
    RoomKeepsUnused(cfg, states, moves, i, j, pod);
    OverlapSafety(cfg, states, moves, i, j, pod, client);
  }

  lemma GracefulIsRun(cfg: Config, states: seq<Shared>, moves: seq<Move>, i: nat)
    requires ValidConfig(cfg) && SharedGraceful(cfg, states, moves, i)
    ensures SharedRun(cfg, states, moves) && |states| == |moves| + 1
    ensures forall k :: 0 <= k < |moves| ==> Moves(cfg, states[k], moves[k], states[k + 1])
  {
    hide ValidConfig, Moves, SharedGraceKept;
  }

  /** Whatever a collection deletes was listed with both periods over. */
  lemma DeletedWasListed(cfg: Config, o: Shared, m: Move, o': Shared, pod: string)
    requires ValidConfig(cfg) && RegistrationsFit(cfg, o.listed) && Moves(cfg, o, m, o') && m.DealWith?
    requires pod in o.s.pods && pod !in o'.s.pods
    ensures pod in o.listed && pod == m.name && m.podGone
    ensures o.listed[pod].created + cfg.timeoutSeconds + cfg.reutilizeTimeoutSeconds < o.s.now
  {
    ConfigTimes(cfg);
    hide ValidConfig, TimesOf;
  }

  // ---- no resurrection ----

  lemma MoveKeepsGone(cfg: Config, o: Shared, m: Move, o': Shared, pod: string)
    requires ValidConfig(cfg) && Moves(cfg, o, m, o') && Gone(cfg, o.s, pod)
    ensures Gone(cfg, o'.s, pod)
  {
    hide ValidConfig, Next, Judge, WellNamed;
    if m.Other? {
      StepKeepsGone(cfg, o.s, m.a, o'.s, pod);
    }
  }

  lemma {:induction false} StaysGoneShared(cfg: Config, states: seq<Shared>, moves: seq<Move>, i: nat, j: nat, pod: string)
    requires ValidConfig(cfg) && SharedRun(cfg, states, moves) && i <= j < |states| && Gone(cfg, states[i].s, pod)
    ensures Gone(cfg, states[j].s, pod)
    decreases j
  {
    hide ValidConfig, Moves, Gone;
    if i < j {
      StaysGoneShared(cfg, states, moves, i, j - 1, pod);
      MoveKeepsGone(cfg, states[j - 1], moves[j - 1], states[j], pod);
    }
  }

  lemma DealtWithIsGone(cfg: Config, states: seq<Shared>, moves: seq<Move>, i: nat, j: nat, pod: string)
    requires ValidConfig(cfg) && UnusedSinceListing(cfg, states, moves, i, j, pod)
    requires j < |moves| && moves[j].DealWith? && j + 1 < |states| && WellNamed(cfg.session, pod)
    requires pod in states[j].s.pods && pod !in states[j + 1].s.pods
    ensures Gone(cfg, states[j + 1].s, pod)
  {
    hide *;
    UnusedIsRun(cfg, states, moves, i, j, pod);
    SharedRunKeepsInv(cfg, states, moves, j);
    SharedInvMeans(cfg, states[j]);
    InvMeans(cfg, states[j].s);
    DealingMoves(cfg, states[j], moves[j], states[j + 1]);
    ClientPodIsUsed(cfg, states[j].s.used, states[j].s.pods, pod);
    GoneMeans(cfg, states[j + 1].s, pod);
    ConfigTimes(cfg);
    forall c | c in states[j].s.status && pod in states[j].s.status[c].pods
      ensures Expired(states[j].s.now, states[j].s.status[c].lastSeen, cfg.timeoutSeconds)
    {
      OverlapSafety(cfg, states, moves, i, j, pod, c);
      IsExpired(states[j].s.now, states[j].s.status[c], cfg.timeoutSeconds, cfg.reutilizeTimeoutSeconds);
    }
  }

  lemma IsExpired(now: int, entry: ClientStatus, timeoutSeconds: int, more: int)
    requires !Connected(entry) && entry.lastSeen + timeoutSeconds + more < now && more >= 0
    ensures Expired(now, entry.lastSeen, timeoutSeconds)
  {}

  lemma UnusedIsRun(cfg: Config, states: seq<Shared>, moves: seq<Move>, i: nat, j: nat, pod: string)
    requires ValidConfig(cfg) && UnusedSinceListing(cfg, states, moves, i, j, pod)
    ensures |states| == |moves| + 1 && SharedRun(cfg, states, moves)
    ensures forall k :: 0 <= k < |moves| ==> Moves(cfg, states[k], moves[k], states[k + 1])
  {
    hide ValidConfig, Moves, LeavesUnused;
  }

  lemma SharedInvMeans(cfg: Config, o: Shared)
    requires SharedInv(cfg, o)
    ensures Inv(cfg, o.s) && RegistrationsFit(cfg, o.listed)
  {
    hide Inv, RegistrationsFit;
  }

  lemma DealingMoves(cfg: Config, o: Shared, m: Move, o': Shared)
    requires ValidConfig(cfg) && Moves(cfg, o, m, o') && m.DealWith?
    ensures o'.s.now == o.s.now && o'.s.status == o.s.status && o'.s.used == o.s.used
  {
    hide ValidConfig, Judge;
  }

  /** No resurrection with overlap: a client pod that was not in use since it was listed and is deleted never comes back. */
  lemma NoResurrectionWithOverlap(cfg: Config, states: seq<Shared>, moves: seq<Move>, i: nat, j: nat, k: nat, pod: string)
    requires ValidConfig(cfg) && UnusedSinceListing(cfg, states, moves, i, j, pod)
    requires j < |moves| && moves[j].DealWith? && j < k < |states| && WellNamed(cfg.session, pod)
    requires pod in states[j].s.pods && pod !in states[j + 1].s.pods
    ensures pod !in states[k].s.pods
  {
    hide *;
    UnusedIsRun(cfg, states, moves, i, j, pod);
    DealtWithIsGone(cfg, states, moves, i, j, pod);
    StaysGoneShared(cfg, states, moves, j + 1, k, pod);
    GoneMeans(cfg, states[k].s, pod);
  }
}
