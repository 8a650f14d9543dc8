/** What one client-pod pass leaves behind, and what the next pass makes of it. */
module PassLaws {
  import opened Names
  import opened Model
  import opened SessionStatus
  import opened Placement
  import opened Allocator
  import opened RegistrationManager
  import opened ReadinessReport
  import opened ClientPods
  import opened System
  import opened Steps
  import opened SystemInvariant

  // ---- who is in the status ----

  /** Connected, or away for less than the timeout. */
  predicate InTime(now: int, lastSeen: int, timeoutSeconds: int) {
    lastSeen == DEFAULT_TIME || now < lastSeen + timeoutSeconds
  }

  lemma PlacedMembers(cfg: Config, used: set<string>, given: Inputs, before: View, alloc: Statuses)
    requires ValidConfig(cfg) && PlacesNewcomers(cfg, used, given, before, alloc) && given.now != DEFAULT_TIME
    ensures forall c :: c in alloc <==>
                          && c in given.clients
                          && (given.clients[c] ||
                              (c in before.status && InTime(given.now, before.status[c].lastSeen, cfg.timeoutSeconds)))
    ensures forall c :: c in alloc ==>
                          alloc[c].lastSeen == if given.clients[c] then DEFAULT_TIME
                                               else if before.status[c].lastSeen == DEFAULT_TIME then given.now
                                               else before.status[c].lastSeen
  {
    hide FairlySourced, WithinCapacity, FewestPods, OnePerTemplate, FreshPodStatus;
    var newcomers := Newcomers(given.now, cfg.timeoutSeconds, given.clients, before.status);
    assert forall c :: c in newcomers ==> FreshEntry(cfg, alloc[c]);
  }

  /** After a pass whose status is stored, the status holds exactly the connected clients of the spec and the disconnected
      ones that were recorded and have been away for less than the timeout. The sentinel marks exactly the connected ones;
      of the others, those lost just now were last seen now and the rest when they were before. */
  lemma ExactStatus(cfg: Config, s: State, a: Action, s': State, c: string)
    requires ValidConfig(cfg) && ClockFit(s.now, s.status) && Next(cfg, s, a, s') && Stored(cfg, s, a, s')
    ensures c in s'.status <==>
            && c in s.clients
            && (s.clients[c] ||
                (c in s.status &&
                 (s.status[c].lastSeen == DEFAULT_TIME || s.now < s.status[c].lastSeen + cfg.timeoutSeconds)))
    ensures c in s'.status ==> (Connected(s'.status[c]) <==> s.clients[c])
    ensures c in s'.status ==>
              s'.status[c].lastSeen == if s.clients[c] then DEFAULT_TIME
                                       else if s.status[c].lastSeen == DEFAULT_TIME then s.now
                                       else s.status[c].lastSeen
  {
    StoredMeans(cfg, s, a, s');
    ClientPassMeans(cfg, s, a, s');
    hide Next, Stored, PlacesNewcomers, StatusRewritable, Reported, WithSpawned, RegistrationsAfter, IdlePods, BusyPods,
         ListedPods, ComputedBy, Allocated, PodsMissing;
    PlacedMembers(cfg, s.used, GivenTo(s, a.ip, a.others), ViewOf(s), a.effects.alloc);
    ReportedKeeps(ListedPods(cfg, s.pods), a.ip, a.effects.alloc);
  }

  // ---- stickiness ----

  /** When the action was a pass, the client was in the spec and, if it was away, for less than the timeout. */
  predicate StaysIn(cfg: Config, s: State, a: Action, c: string) {
    a.ReconcileClients? ==>
      && c in s.clients
      && (c in s.status ==>
            s.status[c].lastSeen == DEFAULT_TIME || s.now < s.status[c].lastSeen + cfg.timeoutSeconds)
  }

  lemma PassIsSticky(cfg: Config, s: State, a: Action, s': State, c: string)
    requires ValidConfig(cfg) && Next(cfg, s, a, s') && c in s.status && StaysIn(cfg, s, a, c)
    ensures c in s'.status && s'.status[c].pods.Keys == s.status[c].pods.Keys
  {
    if a.ReconcileClients? {
      hide *;
      ClientPassMeans(cfg, s, a, s');
      if a.effects.wrote {
        ComputedIs(cfg, s, a);
        ReportedKeeps(ListedPods(cfg, s.pods), a.ip, a.effects.alloc);
        StaysPlaced(cfg, s, a, c);
      }
    }
  }

  lemma StaysPlaced(cfg: Config, s: State, a: Action, c: string)
    requires ValidConfig(cfg) && c in s.status && StaysIn(cfg, s, a, c) && a.ReconcileClients?
    requires PlacesNewcomers(cfg, s.used, GivenTo(s, a.ip, a.others), ViewOf(s), a.effects.alloc)
    ensures c in a.effects.alloc && a.effects.alloc[c].pods == s.status[c].pods
  {
    hide FairlySourced, WithinCapacity, FewestPods, FreshEntry;
    var carried := Carried(s.now, cfg.timeoutSeconds, s.clients, s.status);
    assert c in carried && a.effects.alloc[c] == carried[c];
  }

  /** Over any number of passes, a client that stays in keeps its pods. */
  lemma {:induction false} Stickiness(cfg: Config, states: seq<State>, actions: seq<Action>, i: nat, j: nat, c: string)
    requires ValidConfig(cfg) && Run(cfg, states, actions) && i <= j < |states| && c in states[i].status
    requires forall k :: i <= k < j && k < |actions| ==> StaysIn(cfg, states[k], actions[k], c)
    ensures c in states[j].status && states[j].status[c].pods.Keys == states[i].status[c].pods.Keys
    decreases j
  {
    hide Next, StaysIn;
    if i < j {
      Stickiness(cfg, states, actions, i, j - 1, c);
      PassIsSticky(cfg, states[j - 1], actions[j - 1], states[j], c);
    }
  }

  // ---- registrations ----

  lemma ReportedUsers(listed: Pods, ip: Option<string>, status: Statuses)
    requires StatusRewritable(status)
    ensures forall p :: HasConnectedUser(Reported(listed, ip, status), p) <==> HasConnectedUser(status, p)
    ensures forall more: Pods :: IdlePods(Reported(listed, ip, status), more) == IdlePods(status, more)
    ensures BusyPods(Reported(listed, ip, status)) == BusyPods(status)
  {
    ReportedKeeps(listed, ip, status);
    hide Reported, StatusRewritable, Users;
    var after := Reported(listed, ip, status);
    forall p ensures HasConnectedUser(after, p) <==> HasConnectedUser(status, p) {
      if HasConnectedUser(status, p) {
        var c :| c in status && p in status[c].pods && Connected(status[c]);
        assert p in after[c].pods;
      }
      if HasConnectedUser(after, p) {
        var c :| c in after && p in after[c].pods && Connected(after[c]);
        assert p in status[c].pods;
      }
    }
  }

  /** After a pass that went through and stored its status, a pod of the cluster or of the status is registered exactly
      when no connected client is on it. */
  lemma RegisteredIffIdle(cfg: Config, s: State, a: Action, s': State, p: string)
    requires ValidConfig(cfg) && Next(cfg, s, a, s') && Stored(cfg, s, a, s') && Completed(cfg, ViewOf(s), a.effects)
    requires p in Allocated(s'.status) || p in ListedPods(cfg, s'.pods)
    ensures p in s'.registrations <==> !HasConnectedUser(s'.status, p)
  {
    hide *;
    StoredMeans(cfg, s, a, s');
    var listed, alloc := ListedPods(cfg, s.pods), a.effects.alloc;
    ClientPassMeans(cfg, s, a, s');
    CompletedMeans(cfg, s, a.effects);
    ReportedKeeps(listed, a.ip, alloc);
    ReportedUsers(listed, a.ip, alloc);
    ReadinessUnmoved(cfg, s.pods, a.effects.created, a.ip, p);
    RegisteredAre(s.registrations, alloc, listed, cfg.session, s.now, p);
  }

  lemma RegisteredAre(before: Registrations, alloc: Statuses, listed: Pods, session: string, now: int, p: string)
    requires p in Allocated(alloc) || p in listed
    ensures p in RegistrationsAfter(before, IdlePods(alloc, listed), BusyPods(alloc), session, now)
            <==> !HasConnectedUser(alloc, p)
  {
    hide Allocated, HasConnectedUser;
    ConnectedIsAllocated(alloc, p);
  }

  lemma ConnectedIsAllocated(status: Statuses, p: string)
    ensures HasConnectedUser(status, p) ==> p in Allocated(status)
  {}

  // ---- stopped passes ----

  /** A spent name whose pod is not in the cluster is placed only by carrying over a client recorded on it. */
  lemma SpentNameIsCarried(cfg: Config, used: set<string>, given: Inputs, before: View, alloc: Statuses, p: string)
    requires ValidConfig(cfg) && PlacesNewcomers(cfg, used, given, before, alloc)
    requires p in used && p !in ListedPods(cfg, before.pods)
    ensures p in Allocated(alloc) <==>
            p in Allocated(Carried(given.now, cfg.timeoutSeconds, given.clients, before.status))
    ensures p in Allocated(alloc) ==> p in Allocated(before.status)
  {
    hide WellNamed, WithinCapacity, FewestPods, FreshEntry, ListedPods;
    var carried := Carried(given.now, cfg.timeoutSeconds, given.clients, before.status);
    if p in Allocated(carried) {
      var c :| c in carried && p in carried[c].pods;
      assert p in alloc[c].pods && p in before.status[c].pods;
    }
  }

  /** Whatever a pass created is in the status that is stored by then. This holds even when the pass skipped the write
      because of an outdated annotation: names that were written once are spent, so that nothing new is created. */
  lemma CreatedIsRecorded(cfg: Config, s: State, a: Action, s': State, p: string)
    requires ValidConfig(cfg) && Inv(cfg, s) && Next(cfg, s, a, s') && a.ReconcileClients?
    requires p in s'.pods && p !in s.pods
    ensures p in Allocated(s'.status)
  {
    hide *;
    InvMeans(cfg, s);
    ClientPassMeans(cfg, s, a, s');
    ComputedIs(cfg, s, a);
    ReportedKeeps(ListedPods(cfg, s.pods), a.ip, a.effects.alloc);
    CreatedAre(cfg, s.pods, a.effects.created, p);
    MissingMeans(cfg, ViewOf(s), a.effects.alloc, p);
    ViewsAre(s, a.ip, a.others);
    if a.effects.skipped {
      AnnotatedAreSpent(s.used, s.annotation, p);
      SpentNameIsCarried(cfg, s.used, GivenTo(s, a.ip, a.others), ViewOf(s), a.effects.alloc, p);
    }
  }

  /** And the hash of what the pass computed is annotated by then. */
  lemma CreatedIsAnnotated(cfg: Config, s: State, a: Action, s': State, p: string)
    requires ValidConfig(cfg) && Next(cfg, s, a, s') && a.ReconcileClients? && p in s'.pods && p !in s.pods
    ensures StatusRewritable(a.effects.alloc) && s'.annotation == Some(ComputedBy(cfg, s, a))
  {
    hide *;
    ClientPassMeans(cfg, s, a, s');
    CreatedAre(cfg, s.pods, a.effects.created, p);
  }

  lemma CreatedAre(cfg: Config, pods: Pods, created: set<string>, p: string)
    requires p in WithSpawned(cfg, pods, created) && p !in pods
    ensures p in created
  {}

  lemma MissingMeans(cfg: Config, before: View, alloc: Statuses, p: string)
    ensures p in PodsMissing(cfg, before, alloc) <==> p in Allocated(alloc) && p !in ListedPods(cfg, before.pods)
  {
    hide Allocated, ListedPods;
  }

  lemma AnnotatedAreSpent(used: set<string>, annotation: Option<Digest>, p: string)
    requires AnnotationFit(used, annotation) && annotation.Some? && p in Allocated(annotation.value.clients)
    ensures p in used
  {
    hide Allocated;
  }

  /** The effects this pass would have had with the same placement and no failed write. */
  ghost function Uninterrupted(cfg: Config, given: Inputs, before: View, alloc: Statuses): Effects
    requires StatusRewritable(alloc)
  {
    var skipped := before.annotation == Some(Digest(Computed(cfg, given, before, alloc), given.others));
    Effects(alloc, IdlePods(alloc, ListedPods(cfg, before.pods)), BusyPods(alloc), skipped, !skipped, !skipped,
            PodsMissing(cfg, before, alloc))
  }

  lemma ReadinessUnmoved(cfg: Config, pods: Pods, created: set<string>, ip: Option<string>, p: string)
    ensures PodIsReady(ListedPods(cfg, WithSpawned(cfg, pods, created)), ip, p)
            <==> PodIsReady(ListedPods(cfg, pods), ip, p)
    ensures ListedPods(cfg, WithSpawned(cfg, pods, created)).Keys
            == ListedPods(cfg, pods).Keys + (created - pods.Keys)
  {
    hide Templates, TemplateOf;
  }

  /** Reporting once more, after unready pods were added, changes nothing. */
  lemma ReportedTwice(listed: Pods, more: Pods, ip: Option<string>, status: Statuses)
    requires StatusRewritable(status) && PlainAddress(ip)
    requires forall p :: PodIsReady(more, ip, p) <==> PodIsReady(listed, ip, p)
    ensures StatusRewritable(Reported(listed, ip, status))
    ensures Reported(more, ip, Reported(listed, ip, status)) == Reported(listed, ip, status)
  {
    ReportedKeeps(listed, ip, status);
    var once := Reported(listed, ip, status);
    hide PodIsReady, StatusRewritable;
    forall c | c in once ensures ReportedClient(more, ip, once[c]) == once[c] {
      FitPaths(once, c);
      FitPaths(status, c);
      ReportedClientTwice(listed, more, ip, status[c]);
    }
  }

  lemma FitPaths(status: Statuses, c: string)
    requires StatusRewritable(status) && c in status
    ensures forall p :: p in status[c].pods ==> PathsRewritable(status[c].pods[p].paths)
  {}

  lemma ReportedClientTwice(listed: Pods, more: Pods, ip: Option<string>, entry: ClientStatus)
    requires PlainAddress(ip) && forall p :: PodIsReady(more, ip, p) <==> PodIsReady(listed, ip, p)
    requires forall p :: p in entry.pods ==> PathsRewritable(entry.pods[p].paths)
    requires var once := ReportedClient(listed, ip, entry);
             forall p :: p in once.pods ==> PathsRewritable(once.pods[p].paths)
    ensures ReportedClient(more, ip, ReportedClient(listed, ip, entry)) == ReportedClient(listed, ip, entry)
  {
    var once := ReportedClient(listed, ip, entry);
    hide PathsRewritable, PodIsReady;
    forall p | p in once.pods ensures ReportedPod(more, ip, p, once.pods[p]) == once.pods[p] {
      ReportedPodTwice(listed, more, ip, p, entry.pods[p]);
    }
    assert ReportedClient(more, ip, once).pods == once.pods;
  }

  lemma ReportedPodTwice(listed: Pods, more: Pods, ip: Option<string>, p: string, status: PodStatus)
    requires PlainAddress(ip) && (PodIsReady(more, ip, p) <==> PodIsReady(listed, ip, p))
    requires PathsRewritable(status.paths) && PathsRewritable(ReportedPod(listed, ip, p, status).paths)
    ensures var once := ReportedPod(listed, ip, p, status); ReportedPod(more, ip, p, once) == once
  {
    if PodIsReady(listed, ip, p) {
      forall i | 0 <= i < |status.paths|
        ensures Rewritable(WithHost(ip.value, status.paths[i]))
        ensures WithHost(ip.value, WithHost(ip.value, status.paths[i])) == WithHost(ip.value, status.paths[i])
      {
        RewriteOverwrites(ip.value, ip.value, status.paths[i]);
      }
    }
  }

  /** With clock and spec as they were, a placement carries over to itself and nobody is new. */
  lemma PlacementCarriesOver(cfg: Config, used: set<string>, given: Inputs, before: View, alloc: Statuses,
                             status: Statuses)
    requires ValidConfig(cfg) && PlacesNewcomers(cfg, used, given, before, alloc) && given.now != DEFAULT_TIME
    requires status.Keys == alloc.Keys && forall c :: c in status ==> status[c].lastSeen == alloc[c].lastSeen
    ensures Carried(given.now, cfg.timeoutSeconds, given.clients, status) == status
    ensures Newcomers(given.now, cfg.timeoutSeconds, given.clients, status) == {}
  {
    hide PlacesNewcomers;
    PlacedMembers(cfg, used, given, before, alloc);
    forall c | c in status
      ensures c in given.clients && !Expired(given.now, status[c].lastSeen, cfg.timeoutSeconds)
      ensures NextSeen(given.now, given.clients[c], status[c].lastSeen) == status[c].lastSeen
    {
      if !Connected(alloc[c]) {
        DisconnectedSince(cfg, used, given, before, alloc, c);
      }
    }
  }

  lemma DisconnectedSince(cfg: Config, used: set<string>, given: Inputs, before: View, alloc: Statuses, c: string)
    requires ValidConfig(cfg) && PlacesNewcomers(cfg, used, given, before, alloc)
    requires c in alloc && !Connected(alloc[c])
    ensures !Expired(given.now, alloc[c].lastSeen, cfg.timeoutSeconds)
  {
    hide FairlySourced, WithinCapacity, FewestPods, OnePerTemplate, FreshPodStatus;
    var newcomers := Newcomers(given.now, cfg.timeoutSeconds, given.clients, before.status);
    assert c in newcomers ==> FreshEntry(cfg, alloc[c]);
  }
}
