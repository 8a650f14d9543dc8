/** The session controller and the garbage collector agree on grace periods: a client pod is deleted only when everybody
    recorded on it is expired, and it never comes back. */
module Grace {
  import opened Names
  import opened Model
  import opened SessionStatus
  import opened Placement
  import opened RegistrationManager
  import opened ReadinessReport
  import opened ClientPods
  import opened SessionPods
  import opened GarbageCollector
  import opened Network
  import opened System
  import opened Steps
  import opened SystemInvariant
  import opened PassLaws
  import opened StatusGate

  /** On a registered pod nobody is connected, and everybody was last seen before the registration was made. */
  ghost predicate GraceHolds(status: Statuses, registrations: Registrations) {
    forall c, p :: c in status && p in status[c].pods && p in registrations ==>
                     status[c].lastSeen != DEFAULT_TIME && status[c].lastSeen <= registrations[p].created
  }

  /** The pass did not leave a registration on a pod it recorded a connected client on, and did not register a pod whose
      connected clients are still recorded as such because the status was not written. */
  ghost predicate KeepsGrace(s: State, effects: Effects) {
    if effects.wrote then BusyPods(effects.alloc) * s.registrations.Keys <= effects.busy
    else (effects.idle - s.registrations.Keys) * BusyPods(s.status) == {}
  }

  lemma FinishedKeepsGrace(cfg: Config, s: State, a: Action, s': State)
    requires ValidConfig(cfg) && Next(cfg, s, a, s') && Stored(cfg, s, a, s') && Completed(cfg, ViewOf(s), a.effects)
    ensures KeepsGrace(s, a.effects)
  {
    hide *;
    StoredMeans(cfg, s, a, s');
    ClientPassMeans(cfg, s, a, s');
    CompletedMeans(cfg, s, a.effects);
    KeepsGraceMeans(s, a.effects);
    IdleIsNotBusy(a.effects.alloc, ListedPods(cfg, s.pods));
    ReportedUsers(ListedPods(cfg, s.pods), a.ip, a.effects.alloc);
  }

  // ---- client-pod passes ----

  /** A client of the placement that is not connected was recorded before, and was last seen when it was before or, if it
      was connected then, now. */
  lemma DisconnectedWasRecorded(cfg: Config, used: set<string>, given: Inputs, before: View, alloc: Statuses, c: string)
    requires ValidConfig(cfg) && PlacesNewcomers(cfg, used, given, before, alloc)
    requires c in alloc && alloc[c].lastSeen != DEFAULT_TIME
    ensures c in before.status && alloc[c].pods == before.status[c].pods
    ensures alloc[c].lastSeen == if before.status[c].lastSeen == DEFAULT_TIME then given.now
                                 else before.status[c].lastSeen
  {
    hide FairlySourced, WithinCapacity, FewestPods, OnePerTemplate, FreshPodStatus;
    var newcomers := Newcomers(given.now, cfg.timeoutSeconds, given.clients, before.status);
    assert c in newcomers ==> FreshEntry(cfg, alloc[c]);
  }

  lemma ReportedGrace(listed: Pods, ip: Option<string>, alloc: Statuses, registrations: Registrations)
    requires StatusRewritable(alloc)
    ensures GraceHolds(Reported(listed, ip, alloc), registrations) <==> GraceHolds(alloc, registrations)
  {
    ReportedKeeps(listed, ip, alloc);
    hide Reported, StatusRewritable, Allocated, Users;
    var after := Reported(listed, ip, alloc);
    if GraceHolds(after, registrations) {
      forall c, p | c in alloc && p in alloc[c].pods && p in registrations
        ensures alloc[c].lastSeen != DEFAULT_TIME && alloc[c].lastSeen <= registrations[p].created
      {
        assert p in after[c].pods;
      }
    }
  }

  /** The registrations after a written pass are in grace with the placement exactly when no busy pod stayed registered. */
  lemma WrittenGrace(cfg: Config, used: set<string>, given: Inputs, before: View, effects: Effects,
                     registrations: Registrations)
    requires ValidConfig(cfg) && PlacesNewcomers(cfg, used, given, before, effects.alloc)
    requires ClockFit(given.now, before.status) && GraceHolds(before.status, before.registrations)
    requires effects.idle <= IdlePods(effects.alloc, ListedPods(cfg, before.pods))
    requires effects.busy <= BusyPods(effects.alloc)
    requires registrations
             == RegistrationsAfter(before.registrations, effects.idle, effects.busy, cfg.session, given.now)
    ensures GraceHolds(effects.alloc, registrations) <==>
            BusyPods(effects.alloc) * before.registrations.Keys <= effects.busy
  {
    var alloc := effects.alloc;
    hide PlacesNewcomers, ListedPods;
    if BusyPods(alloc) * before.registrations.Keys <= effects.busy {
      forall c, p | c in alloc && p in alloc[c].pods && p in registrations
        ensures alloc[c].lastSeen != DEFAULT_TIME && alloc[c].lastSeen <= registrations[p].created
      {
        assert p in Allocated(alloc);
        assert alloc[c].lastSeen != DEFAULT_TIME;
        DisconnectedWasRecorded(cfg, used, given, before, alloc, c);
      }
    }
    if GraceHolds(alloc, registrations) {
      forall p | p in BusyPods(alloc) && p in before.registrations ensures p in effects.busy {
        var c :| c in alloc && p in alloc[c].pods && Connected(alloc[c]);
      }
    }
  }

  /** Registering while the old status stays is safe exactly when nobody recorded there is connected. */
  lemma UnwrittenGrace(cfg: Config, now: int, status: Statuses, before: Registrations, idle: set<string>,
                       busy: set<string>, registrations: Registrations)
    requires ClockFit(now, status) && GraceHolds(status, before) && idle !! busy
    requires registrations == RegistrationsAfter(before, idle, busy, cfg.session, now)
    ensures GraceHolds(status, registrations) <==> (idle - before.Keys) * BusyPods(status) == {}
  {
    if (idle - before.Keys) * BusyPods(status) == {} {
      forall c, p | c in status && p in status[c].pods && p in registrations
        ensures status[c].lastSeen != DEFAULT_TIME && status[c].lastSeen <= registrations[p].created
      {
        if p !in before {
          assert p in Allocated(status) && p !in (idle - before.Keys) * BusyPods(status);
        }
      }
    }
    if GraceHolds(status, registrations) {
      assert forall p :: p in idle - before.Keys ==> p in registrations;
      assert forall p :: p in registrations ==> !HasConnectedUser(status, p);
    }
  }

  /** Grace survives a client-pod pass, whether it went through, stopped or ignored a failed write, exactly when the pass
      keeps it in the sense above. */
  lemma GraceAfterPass(cfg: Config, s: State, a: Action, s': State)
    requires ValidConfig(cfg) && Inv(cfg, s) && GraceHolds(s.status, s.registrations)
    requires Next(cfg, s, a, s') && a.ReconcileClients?
    ensures GraceHolds(s'.status, s'.registrations) <==> KeepsGrace(s, a.effects)
  {
    hide *;
    var e := a.effects;
    InvMeans(cfg, s);
    ClientPassMeans(cfg, s, a, s');
    ComputedIs(cfg, s, a);
    KeepsGraceMeans(s, e);
    IdleIsNotBusy(e.alloc, ListedPods(cfg, s.pods));
    if e.wrote {
      ViewsAre(s, a.ip, a.others);
      WrittenGrace(cfg, s.used, GivenTo(s, a.ip, a.others), ViewOf(s), e, s'.registrations);
      ReportedGrace(ListedPods(cfg, s.pods), a.ip, e.alloc, s'.registrations);
    } else {
      UnwrittenGrace(cfg, s.now, s.status, s.registrations, e.idle, e.busy, s'.registrations);
    }
  }

  lemma KeepsGraceMeans(s: State, effects: Effects)
    ensures KeepsGrace(s, effects) <==>
            if effects.wrote then BusyPods(effects.alloc) * s.registrations.Keys <= effects.busy
            else (effects.idle - s.registrations.Keys) * BusyPods(s.status) == {}
  {
    hide BusyPods;
  }

  lemma IdleIsNotBusy(status: Statuses, listed: Pods)
    ensures IdlePods(status, listed) !! BusyPods(status)
  {}

  // ---- getting grace back ----

  lemma CleanedGrace(cfg: Config, used: set<string>, given: Inputs, before: View, alloc: Statuses,
                     registrations: Registrations)
    requires ValidConfig(cfg) && PlacesNewcomers(cfg, used, given, before, alloc) && ClockFit(given.now, before.status)
    requires registrations
             == RegistrationsAfter(before.registrations, IdlePods(alloc, ListedPods(cfg, before.pods)), BusyPods(alloc),
                                   cfg.session, given.now)
    ensures GraceHolds(alloc, registrations) <==> NobodyLater(alloc, before.registrations)
  {
    hide PlacesNewcomers, ListedPods;
    if NobodyLater(alloc, before.registrations) {
      forall c, p | c in alloc && p in alloc[c].pods && p in registrations
        ensures alloc[c].lastSeen != DEFAULT_TIME && alloc[c].lastSeen <= registrations[p].created
      {
        assert p in Allocated(alloc);
        assert alloc[c].lastSeen != DEFAULT_TIME;
        DisconnectedWasRecorded(cfg, used, given, before, alloc, c);
      }
    }
    if GraceHolds(alloc, registrations) {
      forall c, p | c in alloc && p in alloc[c].pods && p in before.registrations && p !in BusyPods(alloc)
        ensures alloc[c].lastSeen <= before.registrations[p].created
      {
        assert p in registrations && registrations[p] == before.registrations[p];
      }
    }
  }

  /** On a pod nobody is connected to, nobody was seen after the registration it may have. */
  ghost predicate NobodyLater(status: Statuses, registrations: Registrations) {
    forall c, p :: c in status && p in status[c].pods && p in registrations && p !in BusyPods(status) ==>
                     status[c].lastSeen <= registrations[p].created
  }

  /** Whether or not grace held before, a pass that went through leaves grace exactly when, on the pods it found
      registered and nobody is connected to now, nobody was seen later than the registration. */
  lemma GraceAfterFinishedPass(cfg: Config, s: State, a: Action, s': State)
    requires ValidConfig(cfg) && Inv(cfg, s) && Next(cfg, s, a, s') && Stored(cfg, s, a, s')
    requires Completed(cfg, ViewOf(s), a.effects)
    ensures GraceHolds(s'.status, s'.registrations) <==> NobodyLater(s'.status, s.registrations)
  {
    hide *;
    StoredMeans(cfg, s, a, s');
    InvMeans(cfg, s);
    ClientPassMeans(cfg, s, a, s');
    CompletedMeans(cfg, s, a.effects);
    ViewsAre(s, a.ip, a.others);
    CleanedGrace(cfg, s.used, GivenTo(s, a.ip, a.others), ViewOf(s), a.effects.alloc, s'.registrations);
    ReportedGrace(ListedPods(cfg, s.pods), a.ip, a.effects.alloc, s'.registrations);
    ReportedLater(ListedPods(cfg, s.pods), a.ip, a.effects.alloc, s.registrations);
  }

  /** The same condition on what the pass will carry over is enough, and it is exact unless a newcomer lands on a pod that
      is registered. */
  lemma GraceForeseen(cfg: Config, s: State, a: Action, s': State)
    requires ValidConfig(cfg) && Inv(cfg, s) && Next(cfg, s, a, s') && Stored(cfg, s, a, s')
    requires Completed(cfg, ViewOf(s), a.effects)
    ensures var carried := Carried(s.now, cfg.timeoutSeconds, s.clients, s.status);
            && (NobodyLater(carried, s.registrations) ==> GraceHolds(s'.status, s'.registrations))
            && ((forall c, p :: c in s'.status && c !in carried && p in s'.status[c].pods ==> p !in s.registrations) ==>
                  (GraceHolds(s'.status, s'.registrations) <==> NobodyLater(carried, s.registrations)))
  {
    hide *;
    GraceAfterFinishedPass(cfg, s, a, s');
    StoredMeans(cfg, s, a, s');
    InvMeans(cfg, s);
    ClientPassMeans(cfg, s, a, s');
    ViewsAre(s, a.ip, a.others);
    ReportedLater(ListedPods(cfg, s.pods), a.ip, a.effects.alloc, s.registrations);
    ReportedKeeps(ListedPods(cfg, s.pods), a.ip, a.effects.alloc);
    LaterThanCarried(cfg, s.used, GivenTo(s, a.ip, a.others), ViewOf(s), a.effects.alloc, s.registrations);
  }

  lemma LaterThanCarried(cfg: Config, used: set<string>, given: Inputs, before: View, alloc: Statuses,
                         registrations: Registrations)
    requires ValidConfig(cfg) && PlacesNewcomers(cfg, used, given, before, alloc)
    ensures var carried := Carried(given.now, cfg.timeoutSeconds, given.clients, before.status);
            && (NobodyLater(carried, registrations) ==> NobodyLater(alloc, registrations))
            && ((forall c, p :: c in alloc && c !in carried && p in alloc[c].pods ==> p !in registrations) ==>
                  NobodyLater(alloc, registrations) ==> NobodyLater(carried, registrations))
  {
    hide *;
    JoinedMeans(cfg, used, given, before, alloc);
    LaterThan(Carried(given.now, cfg.timeoutSeconds, given.clients, before.status), alloc, registrations);
  }

  lemma LaterThan(carried: Statuses, alloc: Statuses, registrations: Registrations)
    requires forall c :: c in carried ==> c in alloc && alloc[c] == carried[c]
    requires forall c :: c in alloc && c !in carried ==> alloc[c].lastSeen == DEFAULT_TIME
    ensures NobodyLater(carried, registrations) ==> NobodyLater(alloc, registrations)
    ensures (forall c, p :: c in alloc && c !in carried && p in alloc[c].pods ==> p !in registrations) ==>
              NobodyLater(alloc, registrations) ==> NobodyLater(carried, registrations)
  {
    BusyAre(carried);
    BusyAre(alloc);
    hide BusyPods;
    if forall c, p :: c in alloc && c !in carried && p in alloc[c].pods ==> p !in registrations {
      assert forall p :: p in registrations && p in BusyPods(alloc) ==> p in BusyPods(carried);
    }
  }

  lemma BusyAre(status: Statuses)
    ensures forall p :: p in BusyPods(status) <==> exists c :: c in status && p in status[c].pods && Connected(status[c])
  {
    forall c, p | c in status && p in status[c].pods && Connected(status[c]) ensures p in BusyPods(status) {
      assert p in Allocated(status) && HasConnectedUser(status, p);
    }
  }

  /** Who is carried over is placed as before, and everybody else is connected. */
  lemma JoinedMeans(cfg: Config, used: set<string>, given: Inputs, before: View, alloc: Statuses)
    requires ValidConfig(cfg) && PlacesNewcomers(cfg, used, given, before, alloc)
    ensures var carried := Carried(given.now, cfg.timeoutSeconds, given.clients, before.status);
            && (forall c :: c in carried ==> c in alloc && alloc[c] == carried[c])
            && forall c :: c in alloc && c !in carried ==> alloc[c].lastSeen == DEFAULT_TIME
  {
    hide FairlySourced, WithinCapacity, FewestPods, OnePerTemplate, FreshPodStatus;
  }

  lemma ReportedLater(listed: Pods, ip: Option<string>, alloc: Statuses, registrations: Registrations)
    requires StatusRewritable(alloc)
    ensures NobodyLater(Reported(listed, ip, alloc), registrations) <==> NobodyLater(alloc, registrations)
  {
    ReportedKeeps(listed, ip, alloc);
    ReportedUsers(listed, ip, alloc);
    hide Reported, StatusRewritable, Allocated, Users, BusyPods;
    var after := Reported(listed, ip, alloc);
    if NobodyLater(after, registrations) {
      forall c, p | c in alloc && p in alloc[c].pods && p in registrations && p !in BusyPods(alloc)
        ensures alloc[c].lastSeen <= registrations[p].created
      {
        assert p in after[c].pods;
      }
    }
  }

  /** What is wrong about a record is put right by a pass that goes through while somebody is connected to the pod, so a
      failed deregistration is repaired as long as the client stays. */
  lemma FinishedPassRepairs(cfg: Config, s: State, a: Action, s': State)
    requires ValidConfig(cfg) && Inv(cfg, s) && Next(cfg, s, a, s') && Stored(cfg, s, a, s')
    requires Completed(cfg, ViewOf(s), a.effects)
    requires forall c, p :: c in s.status && p in s.status[c].pods && p in s.registrations && p !in BusyPods(s'.status) ==>
                              s.status[c].lastSeen != DEFAULT_TIME && s.status[c].lastSeen <= s.registrations[p].created
    ensures GraceHolds(s'.status, s'.registrations)
  {
    GraceAfterFinishedPass(cfg, s, a, s');
    StoredMeans(cfg, s, a, s');
    ClientPassMeans(cfg, s, a, s');
    ViewsAre(s, a.ip, a.others);
    ReportedKeeps(ListedPods(cfg, s.pods), a.ip, a.effects.alloc);
    hide *;
    LaterMeans(s'.status, s.registrations);
    forall c, p | c in s'.status && p in s'.status[c].pods && p in s.registrations && p !in BusyPods(s'.status)
      ensures s'.status[c].lastSeen <= s.registrations[p].created
    {
      NotConnected(s'.status, c, p);
      DisconnectedWasRecorded(cfg, s.used, GivenTo(s, a.ip, a.others), ViewOf(s), a.effects.alloc, c);
    }
  }

  lemma LaterMeans(status: Statuses, registrations: Registrations)
    ensures NobodyLater(status, registrations) <==>
            forall c, p :: c in status && p in status[c].pods && p in registrations && p !in BusyPods(status) ==>
                             status[c].lastSeen <= registrations[p].created
  {
    hide BusyPods;
  }

  lemma NotConnected(status: Statuses, c: string, p: string)
    requires c in status && p in status[c].pods && p !in BusyPods(status)
    ensures status[c].lastSeen != DEFAULT_TIME
  {
    assert p in Allocated(status);
  }

  // ---- the other steps ----

  lemma AllocatedAreWellNamed(cfg: Config, s: State)
    requires Inv(cfg, s)
    ensures forall p :: p in Allocated(s.status) ==> WellNamed(cfg.session, p)
  {
    hide *;
    InvMeans(cfg, s);
    StatusFitMeans(cfg, s.used, s.status);
    NamesWellFormed(cfg, s.status);
  }

  lemma SessionIdleIsNotAllocated(cfg: Config, s: State, a: Action, s': State)
    requires ValidConfig(cfg) && Inv(cfg, s) && Next(cfg, s, a, s') && a.ReconcileSession?
    ensures a.idle !! Allocated(s.status)
  {
    hide *;
    AllocatedAreWellNamed(cfg, s);
    InvMeans(cfg, s);
    KnownPodsFit(cfg, s.used, s.pods);
    SessionPassMeans(cfg, s, a, s');
    forall p | p in a.idle ensures p !in Allocated(s.status) {
      TemplatePodsAreKnown(cfg, p);
    }
  }

  /** Session pods are no client's, so registering them leaves grace as it is. */
  lemma GraceAfterSessionPass(cfg: Config, s: State, a: Action, s': State)
    requires ValidConfig(cfg) && Inv(cfg, s) && GraceHolds(s.status, s.registrations)
    requires Next(cfg, s, a, s') && a.ReconcileSession?
    ensures GraceHolds(s'.status, s'.registrations)
  {
    hide *;
    SessionIdleIsNotAllocated(cfg, s, a, s');
    SessionPassMeans(cfg, s, a, s');
    OthersRegistered(s.status, s.registrations, a.idle, a.busy, cfg.session, s.now);
  }

  lemma OthersRegistered(status: Statuses, before: Registrations, idle: set<string>, busy: set<string>, session: string,
                         now: int)
    requires GraceHolds(status, before) && idle !! Allocated(status)
    ensures GraceHolds(status, RegistrationsAfter(before, idle, busy, session, now))
  {
    forall c, p | c in status && p in status[c].pods ensures p !in idle {
      assert p in Allocated(status);
    }
  }

  lemma GraceAfterCollect(cfg: Config, s: State, a: Action, s': State)
    requires ValidConfig(cfg) && GraceHolds(s.status, s.registrations)
    requires Next(cfg, s, a, s') && a.Collect?
    ensures GraceHolds(s'.status, s'.registrations)
  {
    hide Judge, Reapable;
  }

  lemma StepKeepsGrace(cfg: Config, s: State, a: Action, s': State)
    requires ValidConfig(cfg) && Inv(cfg, s) && GraceHolds(s.status, s.registrations) && Next(cfg, s, a, s')
    requires a.ReconcileClients? ==> KeepsGrace(s, a.effects)
    ensures GraceHolds(s'.status, s'.registrations)
  {
    hide Inv, GraceHolds, KeepsGrace, Pass, SessionPodPass, GcPass, NetworkPass;
    match a
    case ReconcileClients(_, _, _) => GraceAfterPass(cfg, s, a, s');
    case ReconcileSession(_, _, _) => GraceAfterSessionPass(cfg, s, a, s');
    case Collect(_, _) => GraceAfterCollect(cfg, s, a, s');
    case _ =>
  }

  // ---- runs ----

  /** At some point of the run grace held, and every client-pod pass from there to state `i` kept it. */
  ghost predicate GracefulUntil(cfg: Config, states: seq<State>, actions: seq<Action>, i: nat)
    requires ValidConfig(cfg)
  {
    && Run(cfg, states, actions) && i < |states|
    && exists g: nat :: g <= i && GraceKept(states, actions, g, i)
  }

  ghost predicate GraceKept(states: seq<State>, actions: seq<Action>, g: nat, i: nat)
    requires g <= i < |states| && |states| == |actions| + 1
  {
    && GraceHolds(states[g].status, states[g].registrations)
    && forall k :: g <= k < i && actions[k].ReconcileClients? ==> KeepsGrace(states[k], actions[k].effects)
  }

  /** Runs whose client-pod passes all go through are graceful throughout. */
  lemma FinishedRunIsGraceful(cfg: Config, states: seq<State>, actions: seq<Action>, i: nat)
    requires ValidConfig(cfg) && Run(cfg, states, actions) && i < |states|
    requires forall k :: 0 <= k < i && k < |actions| ==> Finished(cfg, states[k], actions[k])
    ensures GracefulUntil(cfg, states, actions, i)
  {
    hide KeepsGrace, Completed, Next;
    forall k | 0 <= k < i && actions[k].ReconcileClients? ensures KeepsGrace(states[k], actions[k].effects) {
      FinishedPassesAnnotate(cfg, states, actions, k);
      RunKeepsCurrent(cfg, states, actions, k);
      assert Finished(cfg, states[k], actions[k]);
      CurrentAnnotationStores(cfg, states[k], actions[k], states[k + 1]);
      FinishedKeepsGrace(cfg, states[k], actions[k], states[k + 1]);
    }
    assert GraceKept(states, actions, 0, i);
  }

  lemma FinishedPassesAnnotate(cfg: Config, states: seq<State>, actions: seq<Action>, i: nat)
    requires ValidConfig(cfg) && Run(cfg, states, actions) && i < |states|
    requires forall k :: 0 <= k < i && k < |actions| ==> Finished(cfg, states[k], actions[k])
    ensures forall k :: 0 <= k < i && k < |actions| && actions[k].ReconcileClients? && actions[k].effects.wrote ==>
                          actions[k].effects.annotated
  {
    hide Completed, Next;
    forall k | 0 <= k < i && k < |actions| && actions[k].ReconcileClients? && actions[k].effects.wrote
      ensures actions[k].effects.annotated
    {
      assert Finished(cfg, states[k], actions[k]);
      CompletedMeans(cfg, states[k], actions[k].effects);
      ClientPassMeans(cfg, states[k], actions[k], states[k + 1]);
    }
  }

  lemma {:induction false} GraceStays(cfg: Config, states: seq<State>, actions: seq<Action>, g: nat, i: nat)
    requires ValidConfig(cfg) && Run(cfg, states, actions) && g <= i < |states| && GraceKept(states, actions, g, i)
    ensures GraceHolds(states[i].status, states[i].registrations)
  {
    hide Next, Inv, KeepsGrace;
    if g < i {
      assert GraceKept(states, actions, g, i - 1);
      GraceStays(cfg, states, actions, g, i - 1);
      RunKeepsInv(cfg, states, actions, i - 1);
      StepKeepsGrace(cfg, states[i - 1], actions[i - 1], states[i]);
    }
  }

  lemma RunKeepsGrace(cfg: Config, states: seq<State>, actions: seq<Action>, i: nat)
    requires ValidConfig(cfg) && GracefulUntil(cfg, states, actions, i)
    ensures GraceHolds(states[i].status, states[i].registrations)
  {
    hide Run, GraceKept;
    assert |states| == |actions| + 1 by { RunLength(cfg, states, actions); }
    var g: nat :| g <= i && GraceKept(states, actions, g, i);
    GraceStays(cfg, states, actions, g, i);
  }

  lemma RunLength(cfg: Config, states: seq<State>, actions: seq<Action>)
    requires ValidConfig(cfg) && Run(cfg, states, actions)
    ensures |states| == |actions| + 1
  {}

  /** Grace safety: when a garbage collection deletes a pod, everybody recorded on it has been disconnected for longer
      than both grace periods together. */
  lemma GraceSafety(cfg: Config, states: seq<State>, actions: seq<Action>, i: nat, pod: string, client: string)
    requires ValidConfig(cfg) && GracefulUntil(cfg, states, actions, i) && i < |actions| && actions[i].Collect?
    requires i + 1 < |states| && pod in states[i].pods && pod !in states[i + 1].pods
    requires client in states[i].status && pod in states[i].status[client].pods
    ensures var entry, now := states[i].status[client], states[i].now;
            && !Connected(entry)
            && entry.lastSeen + cfg.timeoutSeconds + cfg.reutilizeTimeoutSeconds < now
            && Expired(now, entry.lastSeen, cfg.timeoutSeconds)
  {
    RunKeepsGrace(cfg, states, actions, i);
    DeletedOutlastsGrace(cfg, states[i], actions[i], states[i + 1], pod, client);
  }

  lemma DeletedOutlastsGrace(cfg: Config, s: State, a: Action, s': State, pod: string, client: string)
    requires ValidConfig(cfg) && GraceHolds(s.status, s.registrations) && Next(cfg, s, a, s') && a.Collect?
    requires pod in s.pods && pod !in s'.pods && client in s.status && pod in s.status[client].pods
    ensures !Connected(s.status[client])
    ensures s.status[client].lastSeen + cfg.timeoutSeconds + cfg.reutilizeTimeoutSeconds < s.now
    ensures Expired(s.now, s.status[client].lastSeen, cfg.timeoutSeconds)
  {
    ReapedIsPastDeadline(TimesOf(cfg), s.now, s.registrations, s.pods, a.settled, a.victims, s'.registrations, s'.pods,
                         pod);
    hide GcPass;
    assert TimesOf(cfg).Keys == {cfg.session};
  }
}
