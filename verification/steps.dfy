/** The invariant and the steps, taken apart: what a proof about one kind of step starts from. */
module Steps {
  import opened Model
  import opened Placement
  import opened RegistrationManager
  import opened ReadinessReport
  import opened ClientPods
  import opened SessionPods
  import opened GarbageCollector
  import opened Network
  import opened IngressLaws
  import opened System

  ghost function GivenTo(s: State, ip: Option<string>, others: string): Inputs {
    Inputs(s.clients, s.now, ip, others)
  }

  lemma InvMeans(cfg: Config, s: State)
    ensures Inv(cfg, s) <==>
            && ClockFit(s.now, s.status)
            && StatusFit(cfg, s.used, s.status)
            && AnnotationFit(s.used, s.annotation)
            && AllPathsFit(cfg, s.status)
            && PodsKnown(cfg, s.used, s.pods)
            && RegistrationsFit(cfg, s.registrations)
            && ServicesKnown(cfg, s.services)
            && RulesFit(s.rules)
            && MatchesPorts(s.rules, PortsOf(cfg))
  {
    hide ClockFit, StatusFit, AnnotationFit, AllPathsFit, PodsKnown, RegistrationsFit, ServicesKnown, RulesFit, MatchesPorts, PortsOf;
  }

  lemma StatusFitMeans(cfg: Config, used: set<string>, status: Statuses)
    ensures StatusFit(cfg, used, status) <==>
            && AllOnePerTemplate(cfg, status) && WithinCapacity(cfg, status)
            && StatusRewritable(status) && Allocated(status) <= used
  {
    hide AllOnePerTemplate, WithinCapacity, StatusRewritable, Allocated;
  }

  lemma ClientPassStep(cfg: Config, s: State, a: Action, s': State)
    requires ValidConfig(cfg) && Next(cfg, s, a, s') && a.ReconcileClients?
    ensures cfg.clientTemplates != [] && PlainAddress(a.ip)
    ensures Pass(cfg, s.used, GivenTo(s, a.ip, a.others), ViewOf(s), a.effects, ViewOf(s'))
    ensures s' == s.(status := s'.status, annotation := s'.annotation, pods := s'.pods,
                     registrations := s'.registrations,                     used := s.used + Allocated(a.effects.alloc))
  {
    hide Pass, Allocated;
  }

  lemma PassMeans(cfg: Config, used: set<string>, given: Inputs, before: View, e: Effects, after: View)
    requires ValidConfig(cfg) && Pass(cfg, used, given, before, e, after)
    ensures PlacesNewcomers(cfg, used, given, before, e.alloc) && StatusRewritable(e.alloc)
    ensures e.idle <= IdlePods(e.alloc, ListedPods(cfg, before.pods)) && e.busy <= BusyPods(e.alloc)
    ensures e.created <= PodsMissing(cfg, before, e.alloc)
    ensures StatusWritten(Reported(ListedPods(cfg, before.pods), given.ip, e.alloc), given.others, before, e, after)
    ensures after.registrations == RegistrationsAfter(before.registrations, e.idle, e.busy, cfg.session, given.now)
    ensures after.pods == WithSpawned(cfg, before.pods, e.created)
  {
    hide PlacesNewcomers, StatusRewritable, IdlePods, BusyPods, RegistrationsAfter, Reported, ListedPods, WithSpawned,
         PodsMissing, StatusWritten;
  }

  /** What the client-pod pass computes and takes the hash of. */
  ghost function ComputedBy(cfg: Config, s: State, a: Action): Digest
    requires a.ReconcileClients? && StatusRewritable(a.effects.alloc)
  {
    Digest(Reported(ListedPods(cfg, s.pods), a.ip, a.effects.alloc), a.others)
  }

  /** The pass left the status it computed in the store. */
  ghost predicate Stored(cfg: Config, s: State, a: Action, s': State) {
    a.ReconcileClients? && StatusRewritable(a.effects.alloc) && s'.status == ComputedBy(cfg, s, a).clients
  }

  lemma ComputedIs(cfg: Config, s: State, a: Action)
    requires a.ReconcileClients? && StatusRewritable(a.effects.alloc)
    ensures ComputedBy(cfg, s, a) == Digest(Reported(ListedPods(cfg, s.pods), a.ip, a.effects.alloc), a.others)
  {}

  lemma StoredMeans(cfg: Config, s: State, a: Action, s': State)
    requires Stored(cfg, s, a, s')
    ensures a.ReconcileClients? && StatusRewritable(a.effects.alloc)
    ensures s'.status == Reported(ListedPods(cfg, s.pods), a.ip, a.effects.alloc)
  {
    hide StatusRewritable, Reported, ListedPods;
  }

  lemma StoredIs(cfg: Config, s: State, a: Action, s': State)
    requires a.ReconcileClients? && StatusRewritable(a.effects.alloc)
    ensures Stored(cfg, s, a, s') <==> s'.status == ComputedBy(cfg, s, a).clients
  {
    hide StatusRewritable;
  }

  lemma WrittenMeans(digest: Digest, before: View, e: Effects, after: View)
    requires StatusWritten(digest.clients, digest.others, before, e, after)
    ensures e.skipped <==> before.annotation == Some(digest)
    ensures (e.skipped ==> !e.wrote) && (e.annotated ==> e.wrote)
    ensures e.created != {} ==> e.skipped || e.annotated
    ensures after.status == if e.wrote then digest.clients else before.status
    ensures after.annotation == if e.annotated then Some(digest) else before.annotation
  {}

  /** What a client-pod pass does to the state. */
  lemma ClientPassMeans(cfg: Config, s: State, a: Action, s': State)
    requires ValidConfig(cfg) && Next(cfg, s, a, s') && a.ReconcileClients?
    ensures cfg.clientTemplates != [] && PlainAddress(a.ip)
    ensures PlacesNewcomers(cfg, s.used, GivenTo(s, a.ip, a.others), ViewOf(s), a.effects.alloc)
    ensures StatusRewritable(a.effects.alloc)
    ensures a.effects.idle <= IdlePods(a.effects.alloc, ListedPods(cfg, s.pods))
    ensures a.effects.busy <= BusyPods(a.effects.alloc)
    ensures a.effects.created <= PodsMissing(cfg, ViewOf(s), a.effects.alloc)
    ensures a.effects.skipped <==> s.annotation == Some(ComputedBy(cfg, s, a))
    ensures (a.effects.skipped ==> !a.effects.wrote) && (a.effects.annotated ==> a.effects.wrote)
    ensures a.effects.created != {} ==> a.effects.skipped || a.effects.annotated
    ensures s' == s.(
                    status := if a.effects.wrote then ComputedBy(cfg, s, a).clients else s.status,
                    annotation := if a.effects.annotated then Some(ComputedBy(cfg, s, a)) else s.annotation,
                    pods := WithSpawned(cfg, s.pods, a.effects.created),
                    registrations := RegistrationsAfter(s.registrations, a.effects.idle, a.effects.busy, cfg.session,
                                                        s.now),
                    used := s.used + Allocated(a.effects.alloc))
  {
    hide *;
    ClientPassStep(cfg, s, a, s');
    PassMeans(cfg, s.used, GivenTo(s, a.ip, a.others), ViewOf(s), a.effects, ViewOf(s'));
    ViewsAre(s, a.ip, a.others);
    ViewsAre(s', a.ip, a.others);
    ComputedIs(cfg, s, a);
    WrittenMeans(ComputedBy(cfg, s, a), ViewOf(s), a.effects, ViewOf(s'));
  }

  lemma ViewsAre(s: State, ip: Option<string>, others: string)
    ensures ViewOf(s) == View(s.status, s.annotation, s.pods, s.registrations)
    ensures GivenTo(s, ip, others) == Inputs(s.clients, s.now, ip, others)
  {}

  lemma CompletedMeans(cfg: Config, s: State, e: Effects)
    requires Completed(cfg, ViewOf(s), e)
    ensures e.idle == IdlePods(e.alloc, ListedPods(cfg, s.pods)) && e.busy == BusyPods(e.alloc)
    ensures e.skipped || e.annotated
    ensures e.created == PodsMissing(cfg, ViewOf(s), e.alloc)
    ensures PodsMissing(cfg, ViewOf(s), e.alloc) == Allocated(e.alloc) - ListedPods(cfg, s.pods).Keys
  {
    hide IdlePods, BusyPods, ListedPods, Allocated;
  }

  lemma SessionPassMeans(cfg: Config, s: State, a: Action, s': State)
    requires ValidConfig(cfg) && Next(cfg, s, a, s') && a.ReconcileSession?
    ensures SessionPodPass(cfg, s.clients, s.now, s.pods, s.registrations, a.idle, a.busy, a.created, s'.pods,
                           s'.registrations)
    ensures a.idle <= FoundPods(cfg, s.pods).Keys && a.created <= TemplatePodNames(cfg)
    ensures s' == s.(pods := WithRestored(cfg, s.pods, a.created),
                     registrations := RegistrationsAfter(s.registrations, a.idle, a.busy, cfg.session, s.now))
  {
    hide FoundPods, TemplatePodNames, WithRestored, RegistrationsAfter, ConnectedInSpec;
  }

  lemma CollectMeans(cfg: Config, s: State, a: Action, s': State)
    requires ValidConfig(cfg) && Next(cfg, s, a, s') && a.Collect?
    ensures GcPass(TimesOf(cfg), s.now, s.registrations, s.pods, a.settled, a.victims, s'.registrations, s'.pods)
    ensures s' == s.(pods := s'.pods, registrations := s'.registrations)
  {
    hide GcPass;
  }

  lemma PublishMeans(cfg: Config, s: State, a: Action, s': State)
    requires ValidConfig(cfg) && Next(cfg, s, a, s') && a.Publish?
    ensures a.done <= s.pods.Keys && s'.services == WithServices(s.services, PodContainers(s.pods), a.done)
    ensures s' == s.(services := s'.services, rules := s'.rules)
    ensures !a.published ==> s'.rules == s.rules
    ensures a.published ==> a.done == s.pods.Keys && RulesFit(s.rules) && ServicesFit(s'.services)
    ensures a.published ==> Enumerates(a.order, s'.services.Keys) && s'.rules == IngressAfter(s.rules, s'.services, a.order)
  {
    hide WithServices, RulesFit, ServicesFit, Enumerates, IngressAfter;
    assert PodContainers(s.pods).Keys == s.pods.Keys;
  }

  lemma EnvironmentMeans(cfg: Config, s: State, a: Action, s': State)
    requires ValidConfig(cfg) && Next(cfg, s, a, s')
    requires a.SetClient? || a.RemoveClient? || a.Tick? || a.PodTurns? || a.PodLost? || a.ServiceLost?
    ensures s' == s.(now := s'.now, clients := s'.clients, pods := s'.pods, services := s'.services)
    ensures s'.now >= s.now && s'.pods.Keys <= s.pods.Keys && s'.services.Keys <= s.services.Keys
    ensures forall p :: p in s'.pods ==> s'.pods[p] == s.pods[p].(readiness := s'.pods[p].readiness)
    ensures forall n :: n in s'.services ==> s'.services[n] == s.services[n]
  {}
}
