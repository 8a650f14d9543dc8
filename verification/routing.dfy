/** End-to-end routing: what a client's status advertises is what the ingress routes. */
module Routing {
  import opened Names
  import opened Model
  import opened ReadinessReport
  import opened ClientPods
  import opened Network
  import opened IngressLaws
  import opened System
  import opened Steps
  import opened SystemInvariant
  import opened ModelLaws

  /** The rule that an advertised path calls for. */
  function RuleFor(path: string, pod: string, port: Port): Rule
    requires Rewritable(path)
  {
    Rule(HostStripped(path) + PATH_SUFFIX, ServiceName(pod), port.number)
  }

  /** After a pass that published, the pods with rules are exactly the pods with a service. */
  lemma RulesIffService(cfg: Config, s: State, a: Action, s': State, pod: string)
    requires ValidConfig(cfg) && Inv(cfg, s) && Next(cfg, s, a, s') && a.Publish? && a.published
    ensures pod in PathPods(s'.rules) <==> ServiceName(pod) in s'.services
  {
    hide *;
    PublishKeepsInv(cfg, s, a, s');
    InvMeans(cfg, s');
    ServicesHavePorts(cfg, s'.services);
    PublishMeans(cfg, s, a, s');
    IngressAgreesWithServices(s.rules, s'.services, a.order, pod);
  }

  lemma PublishedPodsHaveServices(cfg: Config, s: State, a: Action, s': State, pod: string)
    requires ValidConfig(cfg) && Next(cfg, s, a, s') && a.Publish? && a.published && pod in s.pods
    ensures ServiceName(pod) in s'.services
  {
    hide *;
    PublishMeans(cfg, s, a, s');
    ServicesAre(s.services, PodContainers(s.pods), a.done, pod);
  }

  lemma ServicesAre(services: Services, pods: map<string, seq<Container>>, done: set<string>, pod: string)
    requires pod in done
    ensures ServiceName(pod) in WithServices(services, pods, done)
  {
    hide ServicePorts;
    assert ServiceName(pod) in ServiceNames(done);
  }

  lemma ServicesHavePorts(cfg: Config, services: Services)
    requires ServicesKnown(cfg, services)
    ensures forall n :: n in services ==> n == ServiceName(PodOfService(n)) && services[n].ports != []
  {
    hide ContainersOf;
  }

  lemma AdvertisedMeans(cfg: Config, status: Statuses, client: string, pod: string, i: nat)
    requires AllPathsFit(cfg, status) && client in status && pod in status[client].pods
    requires i < |status[client].pods[pod].paths|
    ensures var path, ports := status[client].pods[pod].paths[i], AllPorts(ContainersOf(cfg, pod));
            && i < |ports| && PortsOf(cfg)(pod) == ports
            && Rewritable(path) && HostStripped(path) == PortPath(pod, ports[i].name)
  {
    hide ContainersOf;
    assert PathsFit(cfg, pod, status[client].pods[pod]);
  }

  lemma MatchMeans(rules: seq<Rule>, ports: string -> seq<Port>, pod: string, i: nat)
    requires MatchesPorts(rules, ports) && pod in PathPods(rules) && i < |ports(pod)|
    ensures PortRule(pod, ports(pod)[i]) in rules
  {
    hide PathPods, PortRule;
  }

  /** After a pass that published, each path a client's status advertises on a pod of the cluster, without its host, is
      the path of a rule that leads to that pod's service, on the container port it was advertised for. */
  lemma AdvertisedPathsAreRouted(cfg: Config, s: State, a: Action, s': State, client: string, pod: string, i: nat)
    requires ValidConfig(cfg) && Inv(cfg, s) && Next(cfg, s, a, s') && a.Publish? && a.published
    requires pod in s'.pods && client in s'.status && pod in s'.status[client].pods
    requires i < |s'.status[client].pods[pod].paths|
    ensures var path, ports := s'.status[client].pods[pod].paths[i], AllPorts(s'.pods[pod].containers);
            && i < |ports| && Rewritable(path) && RuleFor(path, pod, ports[i]) in s'.rules
            && ServiceName(pod) in s'.services && ports[i] in s'.services[ServiceName(pod)].ports
  {
    hide *;
    PublishMeans(cfg, s, a, s');
    PublishKeepsInv(cfg, s, a, s');
    InvMeans(cfg, s');
    PublishedPodsHaveServices(cfg, s, a, s', pod);
    RulesIffService(cfg, s, a, s', pod);
    ServiceCarriesPorts(cfg, s'.services, pod);
    PodIsOfTemplate(cfg, s'.used, s'.pods, pod);
    AdvertisedMeans(cfg, s'.status, client, pod, i);
    MatchMeans(s'.rules, PortsOf(cfg), pod, i);
    RuleIsFor(s'.status[client].pods[pod].paths[i], pod, AllPorts(s'.pods[pod].containers)[i]);
  }

  /** The same from the containers: every port of every container of a pod of the cluster is in its service and has its
      rule; and whoever is recorded on the pod advertises it, possibly behind an address. */
  lemma ContainersAreRouted(cfg: Config, s: State, a: Action, s': State, client: string, pod: string, i: nat, j: nat)
    requires ValidConfig(cfg) && Inv(cfg, s) && Next(cfg, s, a, s') && a.Publish? && a.published
    requires pod in s'.pods && client in s'.status && pod in s'.status[client].pods
    requires i < |s'.pods[pod].containers| && j < |s'.pods[pod].containers[i].ports|
    ensures var port, k := s'.pods[pod].containers[i].ports[j], PortCount(s'.pods[pod].containers[..i]) + j;
            var paths, tail := s'.status[client].pods[pod].paths, "/" + pod + "/" + port.name;
            && pod + "-svc" in s'.services && port in s'.services[pod + "-svc"].ports
            && Rule(tail + "(/|$)(.*)", pod + "-svc", port.number) in s'.rules
            && |paths| == PortCount(s'.pods[pod].containers) && k < |paths|
            && exists host :: paths[k] == host + tail
  {
    hide *;
    var containers := s'.pods[pod].containers;
    var k := PortCount(containers[..i]) + j;
    PublishMeans(cfg, s, a, s');
    PublishKeepsInv(cfg, s, a, s');
    InvMeans(cfg, s');
    PodIsOfTemplate(cfg, s'.used, s'.pods, pod);
    AllPortsAt(containers, i, j);
    AllPortsLength(containers);
    PathForEachPort(cfg, s'.status, client, pod);
    AdvertisedPathsAreRouted(cfg, s, a, s', client, pod, k);
    AdvertisedMeans(cfg, s'.status, client, pod, k);
    Spelled(s'.status[client].pods[pod].paths[k], pod, containers[i].ports[j]);
  }

  lemma PathForEachPort(cfg: Config, status: Statuses, client: string, pod: string)
    requires AllPathsFit(cfg, status) && client in status && pod in status[client].pods
    ensures |status[client].pods[pod].paths| == |AllPorts(ContainersOf(cfg, pod))|
  {
    hide ContainersOf, AllPorts;
    assert PathsFit(cfg, pod, status[client].pods[pod]);
  }

  lemma Spelled(path: string, pod: string, port: Port)
    requires Rewritable(path) && HostStripped(path) == PortPath(pod, port.name)
    ensures RuleFor(path, pod, port) == Rule("/" + pod + "/" + port.name + "(/|$)(.*)", pod + "-svc", port.number)
    ensures ServiceName(pod) == pod + "-svc"
    ensures exists host :: path == host + ("/" + pod + "/" + port.name)
  {
    assert RuleFor(path, pod, port).path == PortPath(pod, port.name) + "(/|$)(.*)";
    var i := |path| - |HostStripped(path)|;
    assert path == path[..i] + HostStripped(path);
  }

  /** A pod without a port is served on a default one. */
  lemma PortlessPodsAreServed(cfg: Config, s: State, a: Action, s': State, pod: string)
    requires ValidConfig(cfg) && Inv(cfg, s) && Next(cfg, s, a, s') && a.Publish? && a.published
    requires pod in s'.pods && PortCount(s'.pods[pod].containers) == 0
    ensures pod + "-svc" in s'.services && s'.services[pod + "-svc"].ports == [Port("default", 8080, "TCP")]
    ensures Rule("/" + pod + "/default(/|$)(.*)", pod + "-svc", 8080) in s'.rules
  {
    hide *;
    PublishMeans(cfg, s, a, s');
    PublishKeepsInv(cfg, s, a, s');
    InvMeans(cfg, s');
    PublishedPodsHaveServices(cfg, s, a, s', pod);
    RulesIffService(cfg, s, a, s', pod);
    PodIsOfTemplate(cfg, s'.used, s'.pods, pod);
    AllPortsLength(s'.pods[pod].containers);
    ServiceCarriesPorts(cfg, s'.services, pod);
    DefaultPort(cfg, pod);
    MatchMeans(s'.rules, PortsOf(cfg), pod, 0);
  }

  lemma DefaultPort(cfg: Config, pod: string)
    requires AllPorts(ContainersOf(cfg, pod)) == []
    ensures PortsOf(cfg)(pod) == [Port("default", 8080, "TCP")]
    ensures PortRule(pod, Port("default", 8080, "TCP"))
            == Rule("/" + pod + "/default(/|$)(.*)", pod + "-svc", 8080)
    ensures ServiceName(pod) == pod + "-svc"
  {
    hide ContainersOf;
    assert PortPath(pod, "default") + PATH_SUFFIX == "/" + pod + "/default(/|$)(.*)";
  }

  lemma RuleIsFor(path: string, pod: string, port: Port)
    requires Rewritable(path) && HostStripped(path) == PortPath(pod, port.name)
    ensures RuleFor(path, pod, port) == PortRule(pod, port)
  {}

  lemma PodIsOfTemplate(cfg: Config, used: set<string>, pods: Pods, pod: string)
    requires PodsKnown(cfg, used, pods) && pod in pods
    ensures pods[pod].containers == ContainersOf(cfg, pod)
  {
    hide ContainersOf;
    assert PodKnown(cfg, used, pod, pods[pod]);
  }

  lemma ServiceCarriesPorts(cfg: Config, services: Services, pod: string)
    requires ServicesKnown(cfg, services) && ServiceName(pod) in services
    ensures services[ServiceName(pod)].ports == PortsOf(cfg)(pod)
  {
    hide ContainersOf;
    ServiceNameParses(pod);
  }

  /** And no rule leads anywhere else: after a pass that published, a rule that is not the session manager's leads to a
      service that exists, on a port of the pod its path names. */
  lemma RulesLeadToTheirPod(cfg: Config, s: State, a: Action, s': State, rule: Rule)
    requires ValidConfig(cfg) && Inv(cfg, s) && Next(cfg, s, a, s') && a.Publish? && a.published
    requires rule in s'.rules && rule.path != SESSION_MANAGER_PATH
    ensures '/' in rule.path && rule.service == ServiceName(PodOfPath(rule.path)) && rule.service in s'.services
    ensures exists port :: port in s'.services[rule.service].ports && rule == PortRule(PodOfPath(rule.path), port)
  {
    hide *;
    PublishKeepsInv(cfg, s, a, s');
    InvMeans(cfg, s');
    RuleIsMatched(s'.rules, PortsOf(cfg), rule);
    RulesIffService(cfg, s, a, s', PodOfPath(rule.path));
    ServiceCarriesPorts(cfg, s'.services, PodOfPath(rule.path));
  }

  lemma RuleIsMatched(rules: seq<Rule>, ports: string -> seq<Port>, rule: Rule)
    requires RulesFit(rules) && MatchesPorts(rules, ports) && rule in rules && rule.path != SESSION_MANAGER_PATH
    ensures '/' in rule.path && PodOfPath(rule.path) in PathPods(rules)
    ensures rule.service == ServiceName(PodOfPath(rule.path))
    ensures exists port :: port in ports(PodOfPath(rule.path)) && rule == PortRule(PodOfPath(rule.path), port)
  {
    hide PodOfPath;
    assert CalledFor(rule, ports);
  }

  /** In every run: a published pass routes every advertised path of every client pod. */
  lemma RunRoutesAdvertisedPaths(cfg: Config, states: seq<State>, actions: seq<Action>, k: nat, client: string,
                                 pod: string, i: nat)
    requires ValidConfig(cfg) && Run(cfg, states, actions) && k < |actions| && k + 1 < |states|
    requires actions[k].Publish? && actions[k].published
    requires var s := states[k + 1];
             && pod in s.pods && client in s.status && pod in s.status[client].pods
             && i < |s.status[client].pods[pod].paths|
    ensures var s := states[k + 1];
            var path, ports := s.status[client].pods[pod].paths[i], AllPorts(s.pods[pod].containers);
            && i < |ports| && Rewritable(path) && RuleFor(path, pod, ports[i]) in s.rules
            && ServiceName(pod) in s.services && ports[i] in s.services[ServiceName(pod)].ports
  {
    RunKeepsInv(cfg, states, actions, k);
    hide Inv, Next, RuleFor;
    AdvertisedPathsAreRouted(cfg, states[k], actions[k], states[k + 1], client, pod, i);
  }
}
