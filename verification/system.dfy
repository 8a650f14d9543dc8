/** One session and its three controllers as a transition system over the shared cluster state. */
module System {
  import opened Names
  import opened Model
  import opened SessionStatus
  import opened Placement
  import opened Allocator
  import opened RegistrationManager
  import opened ReadinessReport
  import opened ClientPods
  import opened SessionPods
  import opened GarbageCollector
  import opened Network
  import opened IngressLaws

  /** `used` holds every client pod name placed so far in the run. */
  datatype State = State(
    now: int,
    clients: map<string, bool>,
    status: Statuses,
    annotation: Option<Digest>,
    pods: Pods,
    registrations: Registrations,
    services: Services,
    rules: seq<Rule>,
    used: set<string>)

  datatype Action =
    | SetClient(client: string, connected: bool)
    | RemoveClient(client: string)
    | Tick(later: int)
    | PodTurns(pod: string, readiness: Readiness)
    | PodLost(pod: string)
    | ServiceLost(service: string)
    | ReconcileSession(idle: set<string>, busy: set<string>, created: set<string>)
    | ReconcileClients(ip: Option<string>, others: string, effects: Effects)
    | Collect(settled: set<string>, victims: set<string>)
    | Publish(done: set<string>, published: bool, order: seq<string>)

  function ViewOf(s: State): View {
    View(s.status, s.annotation, s.pods, s.registrations)
  }

  function TimesOf(cfg: Config): map<string, Times> {
    map[cfg.session := Times(cfg.timeoutSeconds, cfg.reutilizeTimeoutSeconds)]
  }

  function PodContainers(pods: Pods): map<string, seq<Container>> {
    map p | p in pods :: pods[p].containers
  }

  ghost predicate PlainAddress(ip: Option<string>) {
    ip.Some? ==> '/' !in ip.value
  }

  ghost predicate Init(s: State) {
    && s.now > DEFAULT_TIME
    && s.clients == map[] && s.status == map[] && s.pods == map[] && s.registrations == map[] && s.services == map[]
    && s.annotation == None
    && (forall rule :: rule in s.rules ==> rule.path == SESSION_MANAGER_PATH)
    && s.used == {}
  }

  ghost predicate Next(cfg: Config, s: State, a: Action, s': State)
    requires ValidConfig(cfg)
  {
    match a
    case SetClient(c, connected) =>
      (connected || c in s.clients) && s' == s.(clients := s.clients[c := connected])
    case RemoveClient(c) => s' == s.(clients := s.clients - {c})
    case Tick(later) => later >= s.now && s' == s.(now := later)
    case PodTurns(p, readiness) =>
      p in s.pods && s' == s.(pods := s.pods[p := s.pods[p].(readiness := readiness)])
    case PodLost(p) => s' == s.(pods := s.pods - {p})
    case ServiceLost(n) => s' == s.(services := s.services - {n})
    case ReconcileSession(idle, busy, created) =>
      && SessionPodPass(cfg, s.clients, s.now, s.pods, s.registrations, idle, busy, created, s'.pods, s'.registrations)
      && s' == s.(pods := s'.pods, registrations := s'.registrations)
    case ReconcileClients(ip, others, effects) =>
      && cfg.clientTemplates != [] && PlainAddress(ip)
      && Pass(cfg, s.used, Inputs(s.clients, s.now, ip, others), ViewOf(s), effects, ViewOf(s'))
      && s' == s.(status := s'.status, annotation := s'.annotation, pods := s'.pods, registrations := s'.registrations,
                  used := s.used + Allocated(effects.alloc))
    case Collect(settled, victims) =>
      && GcPass(TimesOf(cfg), s.now, s.registrations, s.pods, settled, victims, s'.registrations, s'.pods)
      && s' == s.(pods := s'.pods, registrations := s'.registrations)
    case Publish(done, published, order) =>
      && NetworkPass(PodContainers(s.pods), s.services, s.rules, done, published, order, s'.services, s'.rules)
      && s' == s.(services := s'.services, rules := s'.rules)
  }

  /** The client-pod pass of this action, if it is one, went through. */
  ghost predicate Finished(cfg: Config, s: State, a: Action) {
    a.ReconcileClients? ==> Completed(cfg, ViewOf(s), a.effects)
  }

  // ---- what every step keeps ----

  function ContainersOf(cfg: Config, pod: string): seq<Container> {
    if WellNamed(cfg.session, pod) then SpawnedPod(cfg, pod).containers
    else ContainersFor(cfg, cfg.sessionTemplates, pod)
  }

  ghost predicate ClockFit(now: int, status: Statuses) {
    now > DEFAULT_TIME && forall c :: c in status ==> status[c].lastSeen == DEFAULT_TIME || status[c].lastSeen <= now
  }

  /** A client pod with a minted name or a template's session pod, with its template's containers. */
  ghost predicate PodKnown(cfg: Config, used: set<string>, name: string, pod: ClusterPod) {
    && pod.owner == cfg.session
    && pod.containers == ContainersOf(cfg, name)
    && '/' !in name
    && match pod.kind
       case ClientPod => WellNamed(cfg.session, name) && name in used && TemplateOf(name) in Templates(cfg)
       case SessionPod => name in TemplatePodNames(cfg)
  }

  ghost predicate PodsKnown(cfg: Config, used: set<string>, pods: Pods) {
    forall p :: p in pods ==> PodKnown(cfg, used, p, pods[p])
  }

  /** The paths of a pod status are those of its template, possibly behind an address. */
  ghost predicate PathsFit(cfg: Config, pod: string, status: PodStatus) {
    var ports := AllPorts(ContainersOf(cfg, pod));
    && |status.paths| == |ports|
    && forall i :: 0 <= i < |ports| ==>
                     Rewritable(status.paths[i]) && HostStripped(status.paths[i]) == PortPath(pod, ports[i].name)
  }

  ghost predicate AllPathsFit(cfg: Config, status: Statuses) {
    forall c, p :: c in status && p in status[c].pods ==> PathsFit(cfg, p, status[c].pods[p])
  }

  ghost predicate RegistrationsFit(cfg: Config, registrations: Registrations) {
    forall n :: n in registrations ==> registrations[n].session == cfg.session
  }

  ghost predicate ServicesKnown(cfg: Config, services: Services) {
    && ServicesFit(services)
    && forall n :: n in services ==>
                     && n == ServiceName(PodOfService(n))
                     && services[n].ports == ServicePorts(ContainersOf(cfg, PodOfService(n)))
  }

  /** The names in the status whose hash is annotated are spent as well. */
  ghost predicate AnnotationFit(used: set<string>, annotation: Option<Digest>) {
    annotation.Some? ==> Allocated(annotation.value.clients) <= used
  }

  function PortsOf(cfg: Config): string -> seq<Port> {
    p => ServicePorts(ContainersOf(cfg, p))
  }

  ghost predicate Inv(cfg: Config, s: State) {
    && ClockFit(s.now, s.status)
    && StatusFit(cfg, s.used, s.status)
    && AnnotationFit(s.used, s.annotation)
    && AllPathsFit(cfg, s.status)
    && PodsKnown(cfg, s.used, s.pods)
    && RegistrationsFit(cfg, s.registrations)
    && ServicesKnown(cfg, s.services)
    && RulesFit(s.rules)
    && MatchesPorts(s.rules, PortsOf(cfg))
  }

  lemma InitInv(cfg: Config, s: State)
    requires ValidConfig(cfg) && Init(s)
    ensures Inv(cfg, s)
  {
    assert Allocated(s.status) == {};
    assert forall i :: 0 <= i < |s.rules| ==> s.rules[i] in s.rules;
    assert SESSION_MANAGER_PATH[0] == '/';
    assert PathPods(s.rules) == {};
  }

  // ---- session names ----

  lemma TemplatePodsAreKnown(cfg: Config, p: string)
    requires ValidConfig(cfg) && p in TemplatePodNames(cfg)
    ensures !WellNamed(cfg.session, p) && '/' !in p
  {
    var t :| t in cfg.sessionTemplates && p == SessionPodName(cfg.session, t.name);
    SessionPodNameParses(cfg.session, t.name);
  }

  lemma KnownPodsFit(cfg: Config, used: set<string>, pods: Pods)
    requires ValidConfig(cfg) && PodsKnown(cfg, used, pods)
    ensures PodsFit(cfg, used, pods)
    ensures FoundPods(cfg, pods).Keys <= TemplatePodNames(cfg)
    ensures forall p :: p in TemplatePodNames(cfg) && p in pods ==> p in FoundPods(cfg, pods)
  {
    forall p | p in TemplatePodNames(cfg) ensures !WellNamed(cfg.session, p) {
      TemplatePodsAreKnown(cfg, p);
    }
  }

  // ---- the client-pod pass ----

  lemma ReportedKeeps(listed: Pods, ip: Option<string>, status: Statuses)
    requires StatusRewritable(status)
    ensures var after := Reported(listed, ip, status);
            && after.Keys == status.Keys
            && (forall c :: c in after ==>
                  after[c].lastSeen == status[c].lastSeen && after[c].pods.Keys == status[c].pods.Keys)
            && Allocated(after) == Allocated(status)
            && (forall p :: Users(after, p) == Users(status, p))
            && StatusRewritable(after)
  {
    var after := Reported(listed, ip, status);
    forall p | p in Allocated(status) ensures p in Allocated(after) {
      var c :| c in status && p in status[c].pods;
      assert p in after[c].pods;
    }
    forall p | p in Allocated(after) ensures p in Allocated(status) {
      var c :| c in after && p in after[c].pods;
      assert p in status[c].pods;
    }
    forall c, p | c in after && p in after[c].pods ensures PathsRewritable(after[c].pods[p].paths) {
      if PodIsReady(listed, ip, p) {
        RewrittenStaysRewritable(ip.value, status[c].pods[p].paths);
      }
    }
  }

  lemma SamePodsSameTemplates(cfg: Config, before: map<string, PodStatus>, after: map<string, PodStatus>)
    requires OnePerTemplate(cfg, before) && before.Keys == after.Keys
    ensures OnePerTemplate(cfg, after)
  {
    forall t | t in Templates(cfg) ensures exists p :: p in after && TemplateOf(p) == t {
      var p :| p in before && TemplateOf(p) == t;
      assert p in after;
    }
  }

  lemma ReportedIsFit(cfg: Config, used: set<string>, listed: Pods, ip: Option<string>, status: Statuses)
    requires StatusFit(cfg, used, status)
    ensures StatusFit(cfg, used, Reported(listed, ip, status))
  {
    hide OnePerTemplate;
    var after := Reported(listed, ip, status);
    ReportedKeeps(listed, ip, status);
    forall c | c in after ensures OnePerTemplate(cfg, after[c].pods) {
      SamePodsSameTemplates(cfg, status[c].pods, after[c].pods);
    }
  }

  /** What a pass placed is fit again. */
  lemma AllocIsFit(cfg: Config, used: set<string>, given: Inputs, before: View, alloc: Statuses)
    requires ValidConfig(cfg) && StatusFit(cfg, used, before.status) && PodsFit(cfg, used, before.pods)
    requires PlacesNewcomers(cfg, used, given, before, alloc)
    ensures StatusFit(cfg, used + Allocated(alloc), alloc)
  {
    hide OnePerTemplate, StatusRewritable, WithinCapacity, PodsFit;
    PlacedIsFit(cfg, used, given, before, alloc);
  }
}
