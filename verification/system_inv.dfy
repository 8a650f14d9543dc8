/** The invariant holds in every reachable state, also when passes stop half-way. */
module SystemInvariant {
  import opened Names
  import opened Model
  import opened SessionStatus
  import opened Placement
  import opened Allocator
  import opened RegistrationManager
  import opened ReadinessReport
  import opened ClientPods
  import opened SessionPods
  import opened GarbageCollector
  import opened Network
  import opened IngressLaws
  import opened System
  import opened Steps

  // ---- client-pod passes ----

  lemma FreshPathsFit(cfg: Config, pod: string)
    requires WellNamed(cfg.session, pod) && TemplateOf(pod) in Templates(cfg)
    ensures PathsFit(cfg, pod, FreshPodStatus(pod, Templates(cfg)[TemplateOf(pod)].containers))
  {}

  lemma RewrittenPathsFit(cfg: Config, pod: string, status: PodStatus, listed: Pods, ip: Option<string>)
    requires PathsFit(cfg, pod, status) && PlainAddress(ip) && PathsRewritable(status.paths)
    ensures PathsFit(cfg, pod, ReportedPod(listed, ip, pod, status))
  {
    if PodIsReady(listed, ip, pod) {
      forall i | 0 <= i < |status.paths|
        ensures Rewritable(WithHost(ip.value, status.paths[i]))
        ensures HostStripped(WithHost(ip.value, status.paths[i])) == HostStripped(status.paths[i])
      {
        HostRecoverable(ip.value, status.paths[i]);
      }
    }
  }

  lemma AllocPathsFit(cfg: Config, used: set<string>, given: Inputs, before: View, alloc: Statuses)
    requires ValidConfig(cfg) && AllPathsFit(cfg, before.status) && PlacesNewcomers(cfg, used, given, before, alloc)
    ensures AllPathsFit(cfg, alloc)
  {
    hide FairlySourced, WithinCapacity, FewestPods, PathsFit, OnePerTemplate, FreshPodStatus;
    var newcomers := Newcomers(given.now, cfg.timeoutSeconds, given.clients, before.status);
    forall c, p | c in alloc && p in alloc[c].pods ensures PathsFit(cfg, p, alloc[c].pods[p]) {
      if c in newcomers {
        assert FreshEntry(cfg, alloc[c]);
        TemplateKnown(cfg, alloc[c], p);
        FreshPathsFit(cfg, p);
      } else {
        assert alloc[c].pods == before.status[c].pods;
      }
    }
  }

  lemma ReportedPathsFit(cfg: Config, listed: Pods, ip: Option<string>, status: Statuses)
    requires AllPathsFit(cfg, status) && PlainAddress(ip) && StatusRewritable(status)
    ensures AllPathsFit(cfg, Reported(listed, ip, status))
  {
    hide PathsFit;
    var after := Reported(listed, ip, status);
    forall c, p | c in after && p in after[c].pods ensures PathsFit(cfg, p, after[c].pods[p]) {
      RewrittenPathsFit(cfg, p, status[c].pods[p], listed, ip);
    }
  }

  lemma AllocClockFit(cfg: Config, used: set<string>, given: Inputs, before: View, alloc: Statuses)
    requires ValidConfig(cfg) && PlacesNewcomers(cfg, used, given, before, alloc)
    requires forall c :: c in before.status ==>
                           before.status[c].lastSeen == DEFAULT_TIME || before.status[c].lastSeen <= given.now
    ensures forall c :: c in alloc ==> alloc[c].lastSeen == DEFAULT_TIME || alloc[c].lastSeen <= given.now
  {
    hide FairlySourced, WithinCapacity, FewestPods, OnePerTemplate, FreshPodStatus;
    var newcomers := Newcomers(given.now, cfg.timeoutSeconds, given.clients, before.status);
    forall c | c in alloc ensures alloc[c].lastSeen == DEFAULT_TIME || alloc[c].lastSeen <= given.now {
      if c in newcomers { assert FreshEntry(cfg, alloc[c]); }
    }
  }

  lemma SpawnedPodKnown(cfg: Config, used: set<string>, pod: string)
    requires WellNamed(cfg.session, pod) && TemplateOf(pod) in Templates(cfg) && pod in used
    ensures PodKnown(cfg, used, pod, SpawnedPod(cfg, pod))
  {}

  lemma StillKnown(cfg: Config, used: set<string>, more: set<string>, name: string, pod: ClusterPod)
    requires PodKnown(cfg, used, name, pod)
    ensures PodKnown(cfg, used + more, name, pod)
    ensures forall r :: PodKnown(cfg, used, name, pod.(readiness := r))
  {}

  lemma SpawnedPodsKnown(cfg: Config, used: set<string>, pods: Pods, created: set<string>, alloc: Statuses)
    requires PodsKnown(cfg, used, pods) && AllOnePerTemplate(cfg, alloc) && created <= Allocated(alloc)
    ensures PodsKnown(cfg, used + Allocated(alloc), WithSpawned(cfg, pods, created))
  {
    NamesWellFormed(cfg, alloc);
    hide PodKnown, Allocated, WellNamed, TemplateOf, Templates, SpawnedPod;
    var pods', used' := WithSpawned(cfg, pods, created), used + Allocated(alloc);
    forall p | p in pods' ensures PodKnown(cfg, used', p, pods'[p]) {
      if p in pods {
        StillKnown(cfg, used, Allocated(alloc), p, pods[p]);
      } else {
        SpawnedPodKnown(cfg, used', p);
      }
    }
  }

  lemma RegisteredFit(cfg: Config, before: Registrations, idle: set<string>, busy: set<string>, now: int)
    requires RegistrationsFit(cfg, before)
    ensures RegistrationsFit(cfg, RegistrationsAfter(before, idle, busy, cfg.session, now))
  {}

  lemma ClientPassKeepsInv(cfg: Config, s: State, a: Action, s': State)
    requires ValidConfig(cfg) && Inv(cfg, s) && Next(cfg, s, a, s') && a.ReconcileClients?
    ensures Inv(cfg, s')
  {
    hide *;
    var alloc := a.effects.alloc;
    InvMeans(cfg, s);
    InvMeans(cfg, s');
    ClientPassMeans(cfg, s, a, s');
    KnownPodsFit(cfg, s.used, s.pods);
    ViewsAre(s, a.ip, a.others);
    ComputedIs(cfg, s, a);
    ReportedKeeps(ListedPods(cfg, s.pods), a.ip, alloc);
    AnnotationStaysFit(s.used, Allocated(alloc), s.annotation, ComputedBy(cfg, s, a));
    PlacesMeans(cfg, s.used, GivenTo(s, a.ip, a.others), ViewOf(s), alloc);
    MissingIsAllocated(cfg, ViewOf(s), alloc);
    SpawnedPodsKnown(cfg, s.used, s.pods, a.effects.created, alloc);
    RegisteredFit(cfg, s.registrations, a.effects.idle, a.effects.busy, s.now);
    if a.effects.wrote {
      WrittenStatusFit(cfg, s, a);
    } else {
      MoreUsed(cfg, s.used, Allocated(alloc), s.status);
    }
  }

  lemma AnnotationStaysFit(used: set<string>, more: set<string>, annotation: Option<Digest>, digest: Digest)
    requires AnnotationFit(used, annotation) && Allocated(digest.clients) <= more
    ensures AnnotationFit(used + more, annotation) && AnnotationFit(used + more, Some(digest))
  {
    hide Allocated;
  }

  lemma MissingIsAllocated(cfg: Config, before: View, alloc: Statuses)
    ensures PodsMissing(cfg, before, alloc) <= Allocated(alloc)
  {}

  lemma PlacesMeans(cfg: Config, used: set<string>, given: Inputs, before: View, alloc: Statuses)
    requires ValidConfig(cfg) && StatusFit(cfg, used, before.status) && PodsFit(cfg, used, before.pods)
    requires PlacesNewcomers(cfg, used, given, before, alloc)
    ensures AllOnePerTemplate(cfg, alloc)
  {
    hide OnePerTemplate, StatusRewritable, WithinCapacity, PodsFit;
    PlacedIsFit(cfg, used, given, before, alloc);
  }

  lemma WrittenStatusFit(cfg: Config, s: State, a: Action)
    requires ValidConfig(cfg) && a.ReconcileClients? && PlainAddress(a.ip)
    requires StatusFit(cfg, s.used, s.status) && AllPathsFit(cfg, s.status) && ClockFit(s.now, s.status)
    requires PodsFit(cfg, s.used, s.pods)
    requires PlacesNewcomers(cfg, s.used, GivenTo(s, a.ip, a.others), ViewOf(s), a.effects.alloc)
    requires StatusRewritable(a.effects.alloc)
    ensures var status := Reported(ListedPods(cfg, s.pods), a.ip, a.effects.alloc);
            && StatusFit(cfg, s.used + Allocated(a.effects.alloc), status)
            && AllPathsFit(cfg, status) && ClockFit(s.now, status)
  {
    var given, alloc, listed := GivenTo(s, a.ip, a.others), a.effects.alloc, ListedPods(cfg, s.pods);
    hide StatusFit, PodsFit, PlacesNewcomers, Reported, AllPathsFit, StatusRewritable, Allocated, ListedPods;
    AllocIsFit(cfg, s.used, given, ViewOf(s), alloc);
    ReportedIsFit(cfg, s.used + Allocated(alloc), listed, a.ip, alloc);
    AllocPathsFit(cfg, s.used, given, ViewOf(s), alloc);
    ReportedPathsFit(cfg, listed, a.ip, alloc);
    AllocClockFit(cfg, s.used, given, ViewOf(s), alloc);
    ReportedKeeps(listed, a.ip, alloc);
  }

  lemma MoreUsed(cfg: Config, used: set<string>, more: set<string>, status: Statuses)
    requires StatusFit(cfg, used, status)
    ensures StatusFit(cfg, used + more, status)
  {
    hide AllOnePerTemplate, WithinCapacity, StatusRewritable, Allocated;
  }

  // ---- the other passes ----

  lemma RestoredPodsKnown(cfg: Config, used: set<string>, pods: Pods, created: set<string>)
    requires ValidConfig(cfg) && PodsKnown(cfg, used, pods) && created <= TemplatePodNames(cfg)
    ensures PodsKnown(cfg, used, WithRestored(cfg, pods, created))
  {
    var pods' := WithRestored(cfg, pods, created);
    hide WellNamed, TemplatePodNames;
    forall p | p in pods' ensures PodKnown(cfg, used, p, pods'[p]) {
      if p !in pods {
        TemplatePodsAreKnown(cfg, p);
      }
    }
  }

  lemma SessionPassKeepsInv(cfg: Config, s: State, a: Action, s': State)
    requires ValidConfig(cfg) && Inv(cfg, s) && Next(cfg, s, a, s') && a.ReconcileSession?
    ensures Inv(cfg, s')
  {
    hide *;
    InvMeans(cfg, s);
    InvMeans(cfg, s');
    SessionPassMeans(cfg, s, a, s');
    RestoredPodsKnown(cfg, s.used, s.pods, a.created);
    RegisteredFit(cfg, s.registrations, a.idle, a.busy, s.now);
  }

  lemma FewerKnown(cfg: Config, s: State, a: Action, registrations: Registrations, pods: Pods)
    requires PodsKnown(cfg, s.used, s.pods) && RegistrationsFit(cfg, s.registrations) && a.Collect?
    requires GcPass(TimesOf(cfg), s.now, s.registrations, s.pods, a.settled, a.victims, registrations, pods)
    ensures PodsKnown(cfg, s.used, pods) && RegistrationsFit(cfg, registrations)
  {
    hide PodKnown, Judge, Reapable;
  }

  lemma CollectKeepsInv(cfg: Config, s: State, a: Action, s': State)
    requires ValidConfig(cfg) && Inv(cfg, s) && Next(cfg, s, a, s') && a.Collect?
    ensures Inv(cfg, s')
  {
    hide *;
    InvMeans(cfg, s);
    InvMeans(cfg, s');
    CollectMeans(cfg, s, a, s');
    FewerKnown(cfg, s, a, s'.registrations, s'.pods);
  }

  lemma PublishKeepsInv(cfg: Config, s: State, a: Action, s': State)
    requires ValidConfig(cfg) && Inv(cfg, s) && Next(cfg, s, a, s') && a.Publish?
    ensures Inv(cfg, s')
  {
    hide *;
    InvMeans(cfg, s);
    InvMeans(cfg, s');
    PublishMeans(cfg, s, a, s');
    PodsHaveNoSlash(cfg, s);
    NewServicesKnown(cfg, s, a.done, s'.services);
    if a.published {
      AfterIsFit(s.rules, s'.services, a.order);
      ServicesKnownMeans(cfg, s'.services);
      PassKeepsMatch(s.rules, s'.services, a.order, PortsOf(cfg));
    }
  }

  lemma ServicesKnownMeans(cfg: Config, services: Services)
    requires ServicesKnown(cfg, services)
    ensures ServicesFit(services) && PortsAre(services, PortsOf(cfg))
  {
    hide ContainersOf;
  }

  lemma PodsHaveNoSlash(cfg: Config, s: State)
    requires PodsKnown(cfg, s.used, s.pods)
    ensures PodContainers(s.pods).Keys == s.pods.Keys
    ensures forall p :: p in PodContainers(s.pods) ==>
                          '/' !in p && PodContainers(s.pods)[p] == ContainersOf(cfg, p)
  {
    hide ContainersOf;
  }

  lemma NewServicesKnown(cfg: Config, s: State, done: set<string>, services: Services)
    requires ServicesKnown(cfg, s.services) && done <= PodContainers(s.pods).Keys
    requires forall p :: p in PodContainers(s.pods) ==> '/' !in p && PodContainers(s.pods)[p] == ContainersOf(cfg, p)
    requires services == WithServices(s.services, PodContainers(s.pods), done)
    ensures ServicesKnown(cfg, services)
  {
    hide ContainersOf, PodContainers;
    NewServicesFit(s.services, PodContainers(s.pods), done);
    forall p | p in done ensures PodOfService(ServiceName(p)) == p {
      ServiceNameParses(p);
    }
  }

  lemma EnvironmentKeepsInv(cfg: Config, s: State, a: Action, s': State)
    requires ValidConfig(cfg) && Inv(cfg, s) && Next(cfg, s, a, s')
    requires a.SetClient? || a.RemoveClient? || a.Tick? || a.PodTurns? || a.PodLost? || a.ServiceLost?
    ensures Inv(cfg, s')
  {
    hide *;
    InvMeans(cfg, s);
    InvMeans(cfg, s');
    EnvironmentMeans(cfg, s, a, s');
    LaterClockFits(s.now, s'.now, s.status);
    FewerPodsKnown(cfg, s.used, s.pods, s'.pods);
    FewerServicesKnown(cfg, s.services, s'.services);
  }

  lemma LaterClockFits(now: int, later: int, status: Statuses)
    requires ClockFit(now, status) && now <= later
    ensures ClockFit(later, status)
  {}

  lemma FewerPodsKnown(cfg: Config, used: set<string>, pods: Pods, fewer: Pods)
    requires PodsKnown(cfg, used, pods) && fewer.Keys <= pods.Keys
    requires forall p :: p in fewer ==> fewer[p] == pods[p].(readiness := fewer[p].readiness)
    ensures PodsKnown(cfg, used, fewer)
  {
    hide PodKnown;
    forall p | p in fewer ensures PodKnown(cfg, used, p, fewer[p]) {
      StillKnown(cfg, used, {}, p, pods[p]);
      assert used + {} == used;
    }
  }

  lemma FewerServicesKnown(cfg: Config, services: Services, fewer: Services)
    requires ServicesKnown(cfg, services) && fewer.Keys <= services.Keys
    requires forall n :: n in fewer ==> fewer[n] == services[n]
    ensures ServicesKnown(cfg, fewer)
  {
    hide ContainersOf;
  }

  lemma StepKeepsInv(cfg: Config, s: State, a: Action, s': State)
    requires ValidConfig(cfg) && Inv(cfg, s) && Next(cfg, s, a, s')
    ensures Inv(cfg, s')
  {
    hide Inv, Next;
    match a
    case ReconcileClients(_, _, _) => ClientPassKeepsInv(cfg, s, a, s');
    case ReconcileSession(_, _, _) => SessionPassKeepsInv(cfg, s, a, s');
    case Collect(_, _) => CollectKeepsInv(cfg, s, a, s');
    case Publish(_, _, _) => PublishKeepsInv(cfg, s, a, s');
    case _ => EnvironmentKeepsInv(cfg, s, a, s');
  }

  // ---- runs ----

  /** A run: states linked by actions, from an initial one. */
  ghost predicate Run(cfg: Config, states: seq<State>, actions: seq<Action>)
    requires ValidConfig(cfg)
  {
    && |states| == |actions| + 1
    && Init(states[0])
    && forall i :: 0 <= i < |actions| ==> Next(cfg, states[i], actions[i], states[i + 1])
  }

  lemma RunStep(cfg: Config, states: seq<State>, actions: seq<Action>, i: nat)
    requires ValidConfig(cfg) && Run(cfg, states, actions) && i < |actions|
    ensures i + 1 < |states| && Next(cfg, states[i], actions[i], states[i + 1])
  {
    hide Next;
  }

  lemma {:induction false} RunKeepsInv(cfg: Config, states: seq<State>, actions: seq<Action>, i: nat)
    requires ValidConfig(cfg) && Run(cfg, states, actions) && i < |states|
    ensures Inv(cfg, states[i])
  {
    hide Next, Inv;
    if i == 0 {
      InitInv(cfg, states[0]);
    } else {
      RunKeepsInv(cfg, states, actions, i - 1);
      StepKeepsInv(cfg, states[i - 1], actions[i - 1], states[i]);
    }
  }
}
