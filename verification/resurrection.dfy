/** A client pod the garbage collector deleted never comes back. */
module Resurrection {
  import opened Names
  import opened Model
  import opened SessionStatus
  import opened Placement
  import opened RegistrationManager
  import opened ReadinessReport
  import opened ClientPods
  import opened SessionPods
  import opened GarbageCollector
  import opened Network
  import opened System
  import opened Steps
  import opened SystemInvariant
  import opened PassLaws
  import opened Grace

  /** The pod is gone, its name is spent, and whoever a status still records on it is expired. */
  ghost predicate Gone(cfg: Config, s: State, pod: string) {
    && WellNamed(cfg.session, pod) && pod in s.used && pod !in s.pods
    && forall c :: c in s.status && pod in s.status[c].pods ==>
                     Expired(s.now, s.status[c].lastSeen, cfg.timeoutSeconds)
  }

  /** No placement uses it: its users are not carried over, it is not idle in the cluster, and its name is not fresh. */
  lemma GoneIsNotPlaced(cfg: Config, s: State, ip: Option<string>, others: string, alloc: Statuses, pod: string)
    requires ValidConfig(cfg) && Gone(cfg, s, pod)
    requires PlacesNewcomers(cfg, s.used, GivenTo(s, ip, others), ViewOf(s), alloc)
    ensures pod !in Allocated(alloc)
  {
    hide WellNamed, Joined, WithinCapacity, FewestPods;
    var carried := Carried(s.now, cfg.timeoutSeconds, s.clients, s.status);
    assert forall c :: c in carried ==> c in s.status && carried[c].pods == s.status[c].pods;
    assert pod !in Allocated(carried);
  }

  lemma PassKeepsGone(cfg: Config, s: State, a: Action, s': State, pod: string)
    requires ValidConfig(cfg) && Gone(cfg, s, pod) && Next(cfg, s, a, s') && a.ReconcileClients?
    ensures Gone(cfg, s', pod)
  {
    hide *;
    var alloc := a.effects.alloc;
    ClientPassMeans(cfg, s, a, s');
    GoneIsNotPlaced(cfg, s, a.ip, a.others, alloc, pod);
    ComputedIs(cfg, s, a);
    MissingIsAllocated(cfg, ViewOf(s), alloc);
    SpawnedAre(cfg, s.pods, a.effects.created, pod);
    GoneMeans(cfg, s, pod);
    GoneMeans(cfg, s', pod);
    if a.effects.wrote {
      NobodyReported(ListedPods(cfg, s.pods), a.ip, alloc, pod);
    }
  }

  lemma GoneMeans(cfg: Config, s: State, pod: string)
    ensures Gone(cfg, s, pod) <==>
            && WellNamed(cfg.session, pod) && pod in s.used && pod !in s.pods
            && forall c :: c in s.status && pod in s.status[c].pods ==>
                             Expired(s.now, s.status[c].lastSeen, cfg.timeoutSeconds)
  {
    hide WellNamed, Expired;
  }

  lemma SpawnedAre(cfg: Config, pods: Pods, created: set<string>, pod: string)
    ensures pod in WithSpawned(cfg, pods, created) <==> pod in pods || pod in created
    ensures pod in created && pod !in pods ==> WithSpawned(cfg, pods, created)[pod] == SpawnedPod(cfg, pod)
  {
    hide SpawnedPod;
  }

  lemma NobodyReported(listed: Pods, ip: Option<string>, status: Statuses, pod: string)
    requires StatusRewritable(status) && pod !in Allocated(status)
    ensures forall c :: c in Reported(listed, ip, status) ==> pod !in Reported(listed, ip, status)[c].pods
  {
    hide StatusRewritable, PodIsReady;
  }

  lemma SessionPassKeepsGone(cfg: Config, s: State, a: Action, s': State, pod: string)
    requires ValidConfig(cfg) && Gone(cfg, s, pod) && Next(cfg, s, a, s') && a.ReconcileSession?
    ensures Gone(cfg, s', pod)
  {
    hide *;
    SessionPassMeans(cfg, s, a, s');
    GoneMeans(cfg, s, pod);
    GoneMeans(cfg, s', pod);
    RestoredAre(cfg, s.pods, a.created, pod);
    if pod in TemplatePodNames(cfg) {
      TemplatePodsAreKnown(cfg, pod);
    }
  }

  lemma RestoredAre(cfg: Config, pods: Pods, created: set<string>, pod: string)
    ensures pod in WithRestored(cfg, pods, created) <==> pod in pods || pod in created
  {
    hide ContainersFor;
  }

  lemma StepKeepsGone(cfg: Config, s: State, a: Action, s': State, pod: string)
    requires ValidConfig(cfg) && Gone(cfg, s, pod) && Next(cfg, s, a, s')
    ensures Gone(cfg, s', pod)
  {
    hide WellNamed, Pass, SessionPodPass, NetworkPass;
    match a
    case ReconcileClients(_, _, _) => PassKeepsGone(cfg, s, a, s', pod);
    case ReconcileSession(_, _, _) => SessionPassKeepsGone(cfg, s, a, s', pod);
    case _ =>
  }

  lemma DeletedIsGone(cfg: Config, s: State, a: Action, s': State, pod: string)
    requires ValidConfig(cfg) && Inv(cfg, s) && GraceHolds(s.status, s.registrations) && Next(cfg, s, a, s') && a.Collect?
    requires WellNamed(cfg.session, pod) && pod in s.pods && pod !in s'.pods
    ensures Gone(cfg, s', pod)
  {
    hide *;
    CollectMeans(cfg, s, a, s');
    forall c | c in s.status && pod in s.status[c].pods
      ensures Expired(s.now, s.status[c].lastSeen, cfg.timeoutSeconds)
    {
      DeletedOutlastsGrace(cfg, s, a, s', pod, c);
    }
    InvMeans(cfg, s);
    ClientPodIsUsed(cfg, s.used, s.pods, pod);
    GoneMeans(cfg, s', pod);
  }

  lemma ClientPodIsUsed(cfg: Config, used: set<string>, pods: Pods, pod: string)
    requires ValidConfig(cfg) && PodsKnown(cfg, used, pods) && pod in pods && WellNamed(cfg.session, pod)
    ensures pod in used
  {
    hide TemplatePodNames, WellNamed, ContainersOf;
    assert PodKnown(cfg, used, pod, pods[pod]);
    if pod in TemplatePodNames(cfg) {
      TemplatePodsAreKnown(cfg, pod);
    }
  }

  lemma {:induction false} StaysGone(cfg: Config, states: seq<State>, actions: seq<Action>, i: nat, j: nat, pod: string)
    requires ValidConfig(cfg) && Run(cfg, states, actions) && i <= j < |states| && Gone(cfg, states[i], pod)
    ensures Gone(cfg, states[j], pod)
    decreases j
  {
    hide Next, Gone;
    if i < j {
      StaysGone(cfg, states, actions, i, j - 1, pod);
      StepKeepsGone(cfg, states[j - 1], actions[j - 1], states[j], pod);
    }
  }

  /** No resurrection: once a garbage collection that found grace has deleted a client pod, no later state has a pod of
      that name, whatever its clients do and however later passes end. */
  lemma NoResurrection(cfg: Config, states: seq<State>, actions: seq<Action>, i: nat, j: nat, pod: string)
    requires ValidConfig(cfg) && GracefulUntil(cfg, states, actions, i)
    requires i < j < |states| && i < |actions| && actions[i].Collect?
    requires WellNamed(cfg.session, pod) && pod in states[i].pods && pod !in states[i + 1].pods
    ensures pod !in states[j].pods
  {
    hide WellNamed, Inv, GraceHolds, GraceKept, Next;
    RunKeepsInv(cfg, states, actions, i);
    RunKeepsGrace(cfg, states, actions, i);
    DeletedIsGone(cfg, states[i], actions[i], states[i + 1], pod);
    StaysGone(cfg, states, actions, i + 1, j, pod);
  }

  /** Exactly when a pass that goes through brings a spent name back: when somebody recorded on it is still in the spec and
      connected, or away for less than the timeout. */
  lemma ReturnsIffCarried(cfg: Config, s: State, a: Action, s': State, pod: string)
    requires ValidConfig(cfg) && Inv(cfg, s) && Next(cfg, s, a, s') && a.ReconcileClients?
    requires Completed(cfg, ViewOf(s), a.effects)
    requires WellNamed(cfg.session, pod) && pod in s.used && pod !in s.pods
    ensures pod in s'.pods <==>
            exists c :: c in s.status && pod in s.status[c].pods && c in s.clients &&
                        (s.status[c].lastSeen == DEFAULT_TIME || s.now < s.status[c].lastSeen + cfg.timeoutSeconds)
  {
    hide *;
    InvMeans(cfg, s);
    ClientPassMeans(cfg, s, a, s');
    CompletedMeans(cfg, s, a.effects);
    ViewsAre(s, a.ip, a.others);
    SpawnedAre(cfg, s.pods, a.effects.created, pod);
    NotListed(cfg, s.pods, pod);
    MissingMeans(cfg, ViewOf(s), a.effects.alloc, pod);
    SpentNameIsCarried(cfg, s.used, GivenTo(s, a.ip, a.others), ViewOf(s), a.effects.alloc, pod);
    CarriedPods(s.now, cfg.timeoutSeconds, s.clients, s.status, pod);
  }

  lemma NotListed(cfg: Config, pods: Pods, pod: string)
    requires pod !in pods
    ensures pod !in ListedPods(cfg, pods)
  {}

  lemma CarriedPods(now: int, timeoutSeconds: int, clients: map<string, bool>, status: Statuses, pod: string)
    ensures pod in Allocated(Carried(now, timeoutSeconds, clients, status)) <==>
            exists c :: c in status && pod in status[c].pods && c in clients &&
                        (status[c].lastSeen == DEFAULT_TIME || now < status[c].lastSeen + timeoutSeconds)
  {
    forall c | c in status
      ensures !Expired(now, status[c].lastSeen, timeoutSeconds) <==>
              status[c].lastSeen == DEFAULT_TIME || now < status[c].lastSeen + timeoutSeconds
    {
      ExpiredMeans(now, status[c].lastSeen, timeoutSeconds);
    }
    hide Expired;
    var carried := Carried(now, timeoutSeconds, clients, status);
    forall c | c in carried ensures carried[c].pods == status[c].pods {}
    if c :| c in status && pod in status[c].pods && c in clients &&
            !Expired(now, status[c].lastSeen, timeoutSeconds) {
      assert c in carried && pod in carried[c].pods;
    }
  }
}
