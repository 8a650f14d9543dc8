/** The network controller: one service per pod, and ingress rules that follow the services. */
module Network {
  import opened Names
  import opened Model
  import opened ModelLaws
  import opened Allocator

  datatype Service = Service(name: string, ports: seq<Port>)
  datatype Rule = Rule(path: string, service: string, port: int)

  type Services = map<string, Service>

  // ---- services ----

  /** Services need a port, so a pod without one gets a default. */
  function ServicePorts(containers: seq<Container>): seq<Port> {
    if AllPorts(containers) == [] then [Port("default", 8080, "TCP")] else AllPorts(containers)
  }

  /** A service carries each port of each container at its place; without any it carries the default one. */
  lemma ServicePortsAt(containers: seq<Container>, i: nat, j: nat)
    ensures PortCount(containers) == 0 ==> ServicePorts(containers) == [Port("default", 8080, "TCP")]
    ensures PortCount(containers) > 0 ==> |ServicePorts(containers)| == PortCount(containers)
    ensures i < |containers| && j < |containers[i].ports| ==>
              && PortCount(containers[..i]) + j < |ServicePorts(containers)|
              && ServicePorts(containers)[PortCount(containers[..i]) + j] == containers[i].ports[j]
  {
    AllPortsLength(containers);
    if i < |containers| && j < |containers[i].ports| {
      AllPortsAt(containers, i, j);
    }
  }

  function ServiceFor(pod: string, containers: seq<Container>): Service {
    Service(ServiceName(pod), ServicePorts(containers))
  }

  function ServiceNames(pods: set<string>): set<string> {
    set p | p in pods :: ServiceName(p)
  }

  /** The services once every pod of `done` has one; a service that exists stays as it is. */
  function WithServices(services: Services, pods: map<string, seq<Container>>, done: set<string>): Services {
    map n | n in services.Keys + ServiceNames(done) ::
      if n in services then services[n]
      else if |n| >= 4 && PodOfService(n) in pods then ServiceFor(PodOfService(n), pods[PodOfService(n)])
      else Service(n, [])
  }

  lemma OneMoreService(services: Services, pods: map<string, seq<Container>>, done: set<string>, pod: string)
    requires pod in pods
    ensures var soFar := WithServices(services, pods, done);
            WithServices(services, pods, done + {pod})
            == if ServiceName(pod) in soFar then soFar else soFar[ServiceName(pod) := ServiceFor(pod, pods[pod])]
  {
    ServiceNameParses(pod);
    assert ServiceNames(done + {pod}) == ServiceNames(done) + {ServiceName(pod)};
  }

  /** What the controller knows of a service: nothing, if another service had taken its name. */
  type ServicesMap = map<string, Option<Service>>

  function Mapped(services: Services, nils: set<string>): ServicesMap {
    map n | n in services.Keys + nils :: if n in services then Some(services[n]) else None
  }

  /** For rules, an unknown service counts as one without ports. */
  function AsServices(servicesMap: ServicesMap): Services {
    map n | n in servicesMap :: if servicesMap[n].Some? then servicesMap[n].value else Service(n, [])
  }

  /** The pods whose service names are free. */
  function Servable(pods: set<string>, taken: set<string>): set<string> {
    set p | p in pods && ServiceName(p) !in taken
  }

  function Unknown(pods: set<string>, taken: set<string>): set<string> {
    ServiceNames(pods - Servable(pods, taken))
  }

  datatype Outcome = Created | AlreadyExists | Failed

  /** The parts of the API server the network controller writes; a failed write has no effect. `taken` are the names of
      services that the controller does not list, because they lack its label. */
  class NetworkApi {
    var services: Services
    var taken: set<string>
    var rules: seq<Rule>

    method CreateService(service: Service) returns (outcome: Outcome)
      modifies this`services
      ensures outcome == AlreadyExists <==> service.name in old(services).Keys + taken
      ensures services == if outcome == Created then old(services)[service.name := service] else old(services)
    {
      var fails := *;
      if service.name in services || service.name in taken {
        outcome := AlreadyExists;
      } else if fails {
        outcome := Failed;
      } else {
        services, outcome := services[service.name := service], Created;
      }
    }

    method UpdateIngress(newRules: seq<Rule>) returns (ok: bool)
      modifies this`rules
      ensures rules == if ok then newRules else old(rules)
    {
      ok := *;
      if ok {
        rules := newRules;
      }
    }

    /** The service, unless it could not be created. */
    method SpawnService(pod: string, containers: seq<Container>) returns (outcome: Outcome, service: Option<Service>)
      modifies this`services
      ensures outcome == AlreadyExists <==> ServiceName(pod) in old(services).Keys + taken
      ensures service == if outcome == Created then Some(ServiceFor(pod, containers)) else None
      ensures services == if outcome == Created then old(services)[ServiceName(pod) := ServiceFor(pod, containers)]
                          else old(services)
    {
      var servicePorts: seq<Port> := [];
      for i := 0 to |containers|
        invariant servicePorts == AllPorts(containers[..i])
      {
        assert containers[..i + 1][..i] == containers[..i];
        ghost var before := servicePorts;
        var ports := containers[i].ports;
        for j := 0 to |ports|
          invariant servicePorts == before + ports[..j]
        {
          assert ports[..j + 1] == ports[..j] + [ports[j]];
          servicePorts := servicePorts + [Port(ports[j].name, ports[j].number, ports[j].protocol)];
        }
        assert ports[..|ports|] == ports;
      }
      assert containers[..|containers|] == containers;
      if |servicePorts| == 0 {
        servicePorts := servicePorts + [Port("default", 8080, "TCP")];
      }
      service := Some(Service(ServiceName(pod), servicePorts));
      assert service.value == ServiceFor(pod, containers);
      outcome := CreateService(service.value);
      if outcome != Created {
        service := None;
      }
    }

    /** Gives every pod a service, in the API server and in the map that the ingress is reconciled with. A name that is
        already taken does not stop it, and leaves that service unknown. */
    method SpawnServices(pods: map<string, seq<Container>>)
      returns (ok: bool, servicesMap: ServicesMap, ghost done: set<string>)
      requires taken !! services.Keys
      modifies this`services
      ensures done <= pods.Keys && (ok <==> done == pods.Keys) && taken !! services.Keys
      ensures services == WithServices(old(services), pods, Servable(done, taken))
      ensures servicesMap == Mapped(services, Unknown(done, taken))
    {
      hide *;
      ghost var before := services;
      servicesMap, done, ok := ListedServices(services), {}, true;
      NothingSpawned(before, pods, taken);
      var todo := pods.Keys;
      while todo != {}
        invariant todo <= pods.Keys && done == pods.Keys - todo && taken !! services.Keys
        invariant services == WithServices(before, pods, Servable(done, taken))
        invariant servicesMap == Mapped(services, Unknown(done, taken))
      {
        var pod :| pod in todo;
        OneMoreSpawned(before, pods, done, taken, pod);
        if ServiceName(pod) !in servicesMap {
          var outcome, service := SpawnService(pod, pods[pod]);
          if outcome == Failed {
            ok := false;
            return;
          }
          servicesMap := servicesMap[ServiceName(pod) := service];
        }
        todo, done := todo - {pod}, done + {pod};
      }
      ok := true;
    }

    /** One pass: services first, then the ingress if anything about it changes. It panics when it would publish rules for
        a service it does not know. */
    method Reconcile(pods: map<string, seq<Container>>)
      returns (ok: bool, panicked: bool, ghost done: set<string>, ghost published: bool, ghost order: seq<string>)
      requires RulesFit(rules) && ServicesFit(services) && taken !! services.Keys && forall p :: p in pods ==> '/' !in p
      modifies this`services, this`rules
      ensures done <= pods.Keys && services == WithServices(old(services), pods, Servable(done, taken))
      ensures panicked <==>
              done == pods.Keys && exists p :: p in pods && ServiceName(p) in taken && p !in PathPods(old(rules))
      ensures (ok ==> published) && (panicked ==> !published) && (!published ==> rules == old(rules))
      ensures var servicesMap := AsServices(Mapped(services, Unknown(done, taken)));
              published ==>
                && done == pods.Keys && RulesFit(old(rules)) && ServicesFit(servicesMap)
                && Enumerates(order, servicesMap.Keys) && rules == IngressAfter(old(rules), servicesMap, order)
      ensures (forall p :: p in pods ==> ServiceName(p) !in taken) ==>
                !panicked && NetworkPass(pods, old(services), old(rules), done, published, order, services, rules)
    {
      hide *;
      ghost var services0, rules0 := services, rules;
      var servicesMap;
      order, published, panicked := [], false, false;
      ok, servicesMap, done := SpawnServices(pods);
      PassIs(pods, services0, rules0, taken, done, published, order, services, rules);
      if !ok {
        return;
      }
      AllServable(done, taken, services);
      NewServicesFit(services0, pods, Servable(done, taken));
      MappedFit(services, pods.Keys, taken);
      var ingress := new Ingress(rules);
      var podsSet, updatedByGC := ingress.GarbageCollection(servicesMap);
      var updatedByPub;
      panicked, updatedByPub, order := ingress.Publish(servicesMap, podsSet);
      PanicMeans(services, pods.Keys, taken, podsSet);
      if panicked {
        ok := false;
        return;
      }
      AfterIs(rules0, AsServices(servicesMap), order);
      if updatedByGC || updatedByPub {
        ok := UpdateIngress(ingress.paths);
      }
      published := ok;
      PassIs(pods, services0, rules0, taken, done, published, order, services, rules);
    }
  }

  lemma NothingSpawned(services: Services, pods: map<string, seq<Container>>, taken: set<string>)
    ensures WithServices(services, pods, Servable({}, taken)) == services
    ensures ListedServices(services) == Mapped(services, Unknown({}, taken))
  {
    hide ServicePorts;
    assert Servable({}, taken) == {};
    assert ServiceNames({}) == {};
    assert Unknown({}, taken) == {};
  }

  lemma OneMoreSpawned(services: Services, pods: map<string, seq<Container>>, done: set<string>, taken: set<string>,
                       pod: string)
    requires pod in pods && taken !! WithServices(services, pods, Servable(done, taken)).Keys
    ensures var key, soFar := ServiceName(pod), WithServices(services, pods, Servable(done, taken));
            && WithServices(services, pods, Servable(done + {pod}, taken))
               == (if key in soFar || key in taken then soFar else soFar[key := ServiceFor(pod, pods[pod])])
            && Mapped(WithServices(services, pods, Servable(done + {pod}, taken)), Unknown(done + {pod}, taken))
               == (var known := Mapped(soFar, Unknown(done, taken));
                   if key in known then known
                   else known[key := if key in taken then None else Some(ServiceFor(pod, pods[pod]))])
            && (key in Mapped(soFar, Unknown(done, taken)) ==> key in soFar || key in taken)
            && (key in soFar ==> key in Mapped(soFar, Unknown(done, taken)))
  {
    var key, soFar := ServiceName(pod), WithServices(services, pods, Servable(done, taken));
    hide WithServices, ServiceFor, ServicePorts, ServiceName;
    if key in taken {
      assert Servable(done + {pod}, taken) == Servable(done, taken);
      assert (done + {pod}) - Servable(done + {pod}, taken) == (done - Servable(done, taken)) + {pod};
      assert Unknown(done + {pod}, taken) == Unknown(done, taken) + {key};
    } else {
      assert Servable(done + {pod}, taken) == Servable(done, taken) + {pod};
      assert (done + {pod}) - Servable(done + {pod}, taken) == done - Servable(done, taken);
      OneMoreService(services, pods, Servable(done, taken), pod);
      assert Unknown(done + {pod}, taken) == Unknown(done, taken);
      UnknownAreTaken(done, taken);
    }
  }

  lemma UnknownAreTaken(pods: set<string>, taken: set<string>)
    ensures Unknown(pods, taken) <= taken
    ensures forall p :: p in pods && ServiceName(p) in taken ==> ServiceName(p) in Unknown(pods, taken)
  {
    hide ServiceName;
  }

  lemma MappedFit(services: Services, pods: set<string>, taken: set<string>)
    requires ServicesFit(services) && forall p :: p in pods ==> '/' !in p
    ensures ServicesFit(AsServices(Mapped(services, Unknown(pods, taken))))
    ensures AsServices(Mapped(services, Unknown(pods, taken))).Keys == Mapped(services, Unknown(pods, taken)).Keys
  {
    forall p | p in pods ensures |ServiceName(p)| >= 4 && '/' !in ServiceName(p) {
      ServiceNameParses(p);
    }
    hide ServiceName;
  }

  /** Publishing panics on a pod without rules whose service is unknown. */
  lemma PanicMeans(services: Services, pods: set<string>, taken: set<string>, podsSet: set<string>)
    requires taken !! services.Keys
    ensures var servicesMap := Mapped(services, Unknown(pods, taken));
            (exists n :: n in servicesMap && servicesMap[n].None? && |n| >= 4 && PodOfService(n) !in podsSet) <==>
            exists p :: p in pods && ServiceName(p) in taken && p !in podsSet
  {
    UnknownAreTaken(pods, taken);
    var servicesMap := Mapped(services, Unknown(pods, taken));
    forall p | p in pods ensures PodOfService(ServiceName(p)) == p && |ServiceName(p)| >= 4 {
      ServiceNameParses(p);
    }
    if p :| p in pods && ServiceName(p) in taken && p !in podsSet {
      assert ServiceName(p) in servicesMap && servicesMap[ServiceName(p)].None?;
    }
    if n :| n in servicesMap && servicesMap[n].None? && |n| >= 4 && PodOfService(n) !in podsSet {
      assert n in Unknown(pods, taken);
      var p :| p in pods - Servable(pods, taken) && ServiceName(p) == n;
      assert p in pods && ServiceName(p) in taken;
    }
  }

  lemma AfterIs(rules: seq<Rule>, services: Services, order: seq<string>)
    requires RulesFit(rules) && ServicesFit(services) && Enumerates(order, services.Keys)
    ensures RulesFit(rules) <==> forall i :: 0 <= i < |rules| ==> '/' in rules[i].path
    ensures forall n :: n in order ==> n in services && |n| >= 4
    ensures IngressAfter(rules, services, order) == Kept(rules, services) + Published(services, PathPods(rules), order)
    ensures Kept(rules, services) == rules &&
            !(exists n :: n in services && services[n].ports != [] && |n| >= 4 && PodOfService(n) !in PathPods(rules))
            ==> IngressAfter(rules, services, order) == rules
  {
    UpdatedMeansUnstable(rules, services, order);
    hide Kept, Published, PathPods, PodOfService;
  }

  /** What a pass did, when no name was taken, is a pass in the sense of one step. */
  lemma PassIs(pods: map<string, seq<Container>>, services: Services, rules: seq<Rule>, taken: set<string>,
               done: set<string>, published: bool, order: seq<string>, services': Services, rules': seq<Rule>)
    requires done <= pods.Keys && services' == WithServices(services, pods, Servable(done, taken))
    requires !published ==> rules' == rules
    requires var servicesMap := AsServices(Mapped(services', Unknown(done, taken)));
             published ==>
               && done == pods.Keys && RulesFit(rules) && ServicesFit(servicesMap)
               && Enumerates(order, servicesMap.Keys) && rules' == IngressAfter(rules, servicesMap, order)
    ensures (forall p :: p in pods ==> ServiceName(p) !in taken) ==>
              NetworkPass(pods, services, rules, done, published, order, services', rules')
  {
    hide WithServices, IngressAfter, ServicesFit, RulesFit, Enumerates, ServiceName, Servable, Unknown, Mapped, AsServices;
    AllServable(done, taken, services');
  }

  lemma AllServable(pods: set<string>, taken: set<string>, services: Services)
    ensures Servable(pods, taken) <= pods
    ensures (forall p :: p in pods ==> ServiceName(p) !in taken) ==>
              Servable(pods, taken) == pods && AsServices(Mapped(services, Unknown(pods, taken))) == services
  {
    hide ServiceName;
    if forall p :: p in pods ==> ServiceName(p) !in taken {
      assert Servable(pods, taken) == pods;
      assert pods - Servable(pods, taken) == {};
      assert Unknown(pods, taken) == {};
    }
  }

  function ListedServices(services: Services): ServicesMap {
    map n | n in services :: Some(services[n])
  }

  // ---- the ingress, as a filter and an extension ----

  ghost predicate RulesFit(rules: seq<Rule>) {
    forall i :: 0 <= i < |rules| ==> '/' in rules[i].path
  }

  /** Services whose names are long enough to cut and have no `/`, each under its own name. */
  ghost predicate ServicesFit(services: Services) {
    forall n :: n in services ==> |n| >= 4 && '/' !in n && services[n].name == n
  }

  predicate IsLive(rule: Rule, services: Services)
    requires '/' in rule.path
  {
    rule.path == SESSION_MANAGER_PATH || ServiceName(PodOfPath(rule.path)) in services
  }

  /** The session manager's rules and those whose pod has a service, in their order. */
  function Kept(rules: seq<Rule>, services: Services): (r: seq<Rule>)
    requires forall i :: 0 <= i < |rules| ==> '/' in rules[i].path
    ensures |r| <= |rules|
    ensures forall rule :: rule in r <==> rule in rules && '/' in rule.path && IsLive(rule, services)
  {
    if rules == [] then []
    else
      var front, last := rules[..|rules| - 1], rules[|rules| - 1];
      assert rules == front + [last];
      if IsLive(last, services) then Kept(front, services) + [last] else Kept(front, services)
  }

  /** Pods that own a rule. */
  function PathPods(rules: seq<Rule>): set<string> {
    set rule | rule in rules && '/' in rule.path && rule.path != SESSION_MANAGER_PATH :: PodOfPath(rule.path)
  }

  function RulesFor(pod: string, service: Service): seq<Rule> {
    seq(|service.ports|, i requires 0 <= i < |service.ports| =>
      Rule(RulePath(pod, service.ports[i].name), service.name, service.ports[i].number))
  }

  /** The rules published for services in this order, skipping pods that are taken. */
  function Published(services: Services, taken: set<string>, order: seq<string>): seq<Rule>
    requires forall n :: n in order ==> n in services && |n| >= 4
  {
    if order == [] then []
    else
      var front, last := order[..|order| - 1], order[|order| - 1];
      Published(services, taken, front) +
      if PodOfService(last) in taken then [] else RulesFor(PodOfService(last), services[last])
  }

  ghost predicate Enumerates(order: seq<string>, names: set<string>) {
    (forall n :: n in order <==> n in names) && forall i, j :: 0 <= i < j < |order| ==> order[i] != order[j]
  }

  ghost function IngressAfter(rules: seq<Rule>, services: Services, order: seq<string>): seq<Rule>
    requires RulesFit(rules) && ServicesFit(services) && Enumerates(order, services.Keys)
  {
    Kept(rules, services) + Published(services, PathPods(rules), order)
  }

  /** A pass over the ingress would change nothing. */
  ghost predicate Stable(rules: seq<Rule>, services: Services)
    requires RulesFit(rules) && ServicesFit(services)
  {
    && Kept(rules, services) == rules
    && forall n :: n in services && services[n].ports != [] ==> PodOfService(n) in PathPods(rules)
  }

  class Ingress {
    var paths: seq<Rule>

    constructor (paths: seq<Rule>)
      ensures this.paths == paths
    {
      this.paths := paths;
    }

    /** Removes in place the rules whose pod has no service, and reports which pods had rules before. */
    method GarbageCollection(servicesMap: ServicesMap) returns (podsSet: set<string>, updated: bool)
      requires RulesFit(paths)
      modifies this
      ensures RulesFit(old(paths)) && paths == Kept(old(paths), AsServices(servicesMap))
      ensures podsSet == PathPods(old(paths))
      ensures updated <==> Kept(old(paths), AsServices(servicesMap)) != old(paths)
    {
      hide *;
      ghost var rules, services, seen := paths, AsServices(servicesMap), 0;
      SameNames(servicesMap);
      podsSet, updated := {}, false;
      var i := 0;
      NothingSwept(rules, services);
      while i < |paths|
        invariant 0 <= i && 0 <= seen <= |rules| && Swept(rules, services, seen, paths, i, podsSet, updated)
        decreases |rules| - seen
      {
        SweepOne(rules, services, seen, paths, i, podsSet, updated);
        var path := paths[i].path;
        if path != SESSION_MANAGER_PATH {
          var pod := SecondPiece(path);
          podsSet := podsSet + {pod};
          if ServiceName(pod) !in servicesMap {
            updated := true;
            paths := paths[..i] + paths[i + 1..];
            i := i - 1;
          }
        }
        i, seen := i + 1, seen + 1;
      }
      AllSwept(rules, services, seen, paths, i, podsSet, updated);
    }

    /** Appends the rules of every service whose pod had none. It panics at one that is unknown. */
    method Publish(servicesMap: ServicesMap, podsSet: set<string>)
      returns (panicked: bool, updated: bool, ghost order: seq<string>)
      requires ServicesFit(AsServices(servicesMap))
      modifies this
      ensures panicked <==>
              exists n :: n in servicesMap && servicesMap[n].None? && |n| >= 4 && PodOfService(n) !in podsSet
      ensures var services := AsServices(servicesMap);
              !panicked ==>
                && Enumerates(order, services.Keys)
                && paths == old(paths) + Published(services, podsSet, order)
                && (updated <==> exists n :: n in services && services[n].ports != [] && |n| >= 4 &&
                                             PodOfService(n) !in podsSet)
    {
      hide *;
      ghost var services := AsServices(servicesMap);
      panicked, updated, order := false, false, [];
      ghost var rules := paths;
      var todo := servicesMap.Keys;
      NothingVisited(servicesMap, podsSet, rules);
      while todo != {}
        invariant todo <= servicesMap.Keys == services.Keys && Visited(servicesMap, podsSet, todo, order, updated)
        invariant forall n :: n in order ==> n in services && |n| >= 4
        invariant paths == rules + Published(services, podsSet, order)
      {
        var n :| n in todo;
        VisitService(servicesMap, podsSet, todo, order, updated, n, rules);
        if PodOfService(n) !in podsSet {
          if servicesMap[n].None? {
            panicked := true;
            return;
          }
          var appended := AppendRules(PodOfService(n), servicesMap[n].value);
          updated := updated || appended;
        }
        todo, order := todo - {n}, order + [n];
      }
      AllVisited(servicesMap, podsSet, order, updated);
    }

    method AppendRules(pod: string, service: Service) returns (appended: bool)
      modifies this
      ensures paths == old(paths) + RulesFor(pod, service)
      ensures appended <==> service.ports != []
    {
      appended := false;
      ghost var all := RulesFor(pod, service);
      for j := 0 to |service.ports|
        invariant paths == old(paths) + all[..j] && (appended <==> j > 0)
      {
        appended := true;
        paths := paths + [Rule(RulePath(pod, service.ports[j].name), service.name, service.ports[j].number)];
        assert all[..j + 1] == all[..j] + [all[j]];
      }
      assert all[..|service.ports|] == all;
    }
  }

  /** How far publishing has come. */
  ghost predicate Visited(servicesMap: ServicesMap, podsSet: set<string>, todo: set<string>, order: seq<string>,
                          updated: bool)
    requires ServicesFit(AsServices(servicesMap))
  {
    var services := AsServices(servicesMap);
    && Enumerates(order, services.Keys - todo)
    && (forall n :: n in services.Keys - todo && servicesMap[n].None? ==> PodOfService(n) in podsSet)
    && (updated <==> exists n :: n in services.Keys - todo && services[n].ports != [] && PodOfService(n) !in podsSet)
  }

  lemma NothingVisited(servicesMap: ServicesMap, podsSet: set<string>, rules: seq<Rule>)
    requires ServicesFit(AsServices(servicesMap))
    ensures AsServices(servicesMap).Keys == servicesMap.Keys
    ensures Visited(servicesMap, podsSet, servicesMap.Keys, [], false)
    ensures rules + Published(AsServices(servicesMap), podsSet, []) == rules
  {
    hide PodOfService;
  }

  lemma VisitService(servicesMap: ServicesMap, podsSet: set<string>, todo: set<string>, order: seq<string>, updated: bool,
                     n: string, rules: seq<Rule>)
    requires ServicesFit(AsServices(servicesMap)) && Visited(servicesMap, podsSet, todo, order, updated)
    requires n in todo && n in servicesMap
    ensures |n| >= 4 && forall m :: m in order + [n] ==> m in AsServices(servicesMap) && |m| >= 4
    ensures servicesMap[n].None? && PodOfService(n) !in podsSet ==>
              exists m :: m in servicesMap && servicesMap[m].None? && |m| >= 4 && PodOfService(m) !in podsSet
    ensures PodOfService(n) in podsSet ==>
              && Visited(servicesMap, podsSet, todo - {n}, order + [n], updated)
              && Published(AsServices(servicesMap), podsSet, order + [n])
                 == Published(AsServices(servicesMap), podsSet, order)
    ensures PodOfService(n) !in podsSet && servicesMap[n].Some? ==>
              && Visited(servicesMap, podsSet, todo - {n}, order + [n], updated || servicesMap[n].value.ports != [])
              && rules + Published(AsServices(servicesMap), podsSet, order + [n])
                 == rules + Published(AsServices(servicesMap), podsSet, order)
                    + RulesFor(PodOfService(n), servicesMap[n].value)
  {
    hide PodOfService, RulesFor;
    assert (order + [n])[..|order|] == order;
    assert n !in order;
  }

  lemma AllVisited(servicesMap: ServicesMap, podsSet: set<string>, order: seq<string>, updated: bool)
    requires ServicesFit(AsServices(servicesMap)) && Visited(servicesMap, podsSet, {}, order, updated)
    ensures var services := AsServices(servicesMap);
            && Enumerates(order, services.Keys)
            && (forall m :: m in order ==> m in services && |m| >= 4)
            && (updated <==>
                  exists n :: n in services && services[n].ports != [] && |n| >= 4 && PodOfService(n) !in podsSet)
            && !(exists n :: n in servicesMap && servicesMap[n].None? && |n| >= 4 && PodOfService(n) !in podsSet)
  {
    hide PodOfService;
    assert AsServices(servicesMap).Keys - {} == AsServices(servicesMap).Keys;
  }

  lemma SameNames(servicesMap: ServicesMap)
    ensures AsServices(servicesMap).Keys == servicesMap.Keys
  {}

  /** The pod a path belongs to, by indexing its pieces. */
  method SecondPiece(path: string) returns (pod: string)
    requires '/' in path
    ensures pod == PodOfPath(path)
  {
    HasSecondPiece(path);
    pod := Strings.Split(path, '/')[1];
  }

  lemma NoRules(rules: seq<Rule>, services: Services)
    requires RulesFit(rules)
    ensures Kept([], services) == [] == rules[..0] && PathPods([]) == {}
    ensures rules[0..] == rules && forall i :: 0 <= i < |rules| ==> '/' in rules[i].path
  {}

  lemma LiveMeans(rule: Rule, services: Services)
    requires '/' in rule.path
    ensures IsLive(rule, services) <==>
            rule.path == SESSION_MANAGER_PATH || ServiceName(PodOfPath(rule.path)) in services
  {}

  /** How far the sweep over `rules` has come: the kept ones stand in front of those not seen yet. */
  ghost predicate Swept(rules: seq<Rule>, services: Services, seen: nat, paths: seq<Rule>, i: nat, podsSet: set<string>,
                        updated: bool)
    requires seen <= |rules|
  {
    && RulesFit(rules)
    && (forall j :: 0 <= j < |rules| ==> '/' in rules[j].path)
    && var kept := Kept(rules[..seen], services);
    && i == |kept| && paths == kept + rules[seen..]
    && podsSet == PathPods(rules[..seen])
    && (updated <==> kept != rules[..seen])
  }

  lemma NothingSwept(rules: seq<Rule>, services: Services)
    requires RulesFit(rules)
    ensures Swept(rules, services, 0, rules, 0, {}, false)
  {
    NoRules(rules, services);
    hide IsLive, PodOfPath;
  }

  lemma SweepOne(rules: seq<Rule>, services: Services, seen: nat, paths: seq<Rule>, i: nat, podsSet: set<string>,
                 updated: bool)
    requires seen <= |rules| && Swept(rules, services, seen, paths, i, podsSet, updated) && i < |paths|
    ensures seen < |rules|
    ensures '/' in paths[i].path
    ensures paths[i].path == SESSION_MANAGER_PATH ==> Swept(rules, services, seen + 1, paths, i + 1, podsSet, updated)
    ensures paths[i].path != SESSION_MANAGER_PATH ==>
              var pod := PodOfPath(paths[i].path);
              if ServiceName(pod) in services then
                Swept(rules, services, seen + 1, paths, i + 1, podsSet + {pod}, updated)
              else
                Swept(rules, services, seen + 1, paths[..i] + paths[i + 1..], i, podsSet + {pod}, true)
  {
    hide Kept, PathPods, IsLive, PodOfPath, ServiceName;
    var kept := Kept(rules[..seen], services);
    OneMoreRule(rules, seen, services);
    LiveMeans(rules[seen], services);
    RestOfRules(kept, rules, seen);
  }

  lemma AllSwept(rules: seq<Rule>, services: Services, seen: nat, paths: seq<Rule>, i: nat, podsSet: set<string>,
                 updated: bool)
    requires seen <= |rules| && Swept(rules, services, seen, paths, i, podsSet, updated) && i >= |paths|
    ensures RulesFit(rules) && (forall j :: 0 <= j < |rules| ==> '/' in rules[j].path)
    ensures paths == Kept(rules, services) && podsSet == PathPods(rules)
    ensures updated <==> Kept(rules, services) != rules
  {
    hide Kept, PathPods;
    assert seen == |rules| && rules[..seen] == rules;
  }

  lemma RestOfRules(kept: seq<Rule>, rules: seq<Rule>, k: nat)
    requires k < |rules|
    ensures var paths, i := kept + rules[k..], |kept|;
            && paths[i] == rules[k]
            && paths[..i] + paths[i + 1..] == kept + rules[k + 1..]
            && paths == (kept + [rules[k]]) + rules[k + 1..]
  {}

  lemma OneMoreRule(rules: seq<Rule>, k: nat, services: Services)
    requires RulesFit(rules) && k < |rules|
    ensures '/' in rules[k].path
    ensures rules[..k + 1] == rules[..k] + [rules[k]]
    ensures IsLive(rules[k], services) ==> Kept(rules[..k + 1], services) == Kept(rules[..k], services) + [rules[k]]
    ensures !IsLive(rules[k], services) ==> Kept(rules[..k + 1], services) == Kept(rules[..k], services)
    ensures Kept(rules[..k + 1], services) == rules[..k + 1] <==>
            Kept(rules[..k], services) == rules[..k] && IsLive(rules[k], services)
    ensures rules[k].path == SESSION_MANAGER_PATH ==> PathPods(rules[..k + 1]) == PathPods(rules[..k])
    ensures rules[k].path != SESSION_MANAGER_PATH ==>
              PathPods(rules[..k + 1]) == PathPods(rules[..k]) + {PodOfPath(rules[k].path)}
  {
    assert rules[..k + 1][..k] == rules[..k];
    assert forall rule :: rule in rules[..k + 1] <==> rule in rules[..k] || rule == rules[k];
  }

  // ---- a whole pass ----

  /** A pass that gave the pods of `done` their services and then, if it got that far, published. */
  ghost predicate NetworkPass(pods: map<string, seq<Container>>, services: Services, rules: seq<Rule>,
                              done: set<string>, published: bool, order: seq<string>,
                              services': Services, rules': seq<Rule>)
  {
    && done <= pods.Keys && services' == WithServices(services, pods, done)
    && (!published ==> rules' == rules)
    && (published ==>
          && done == pods.Keys && RulesFit(rules) && ServicesFit(services') && Enumerates(order, services'.Keys)
          && rules' == IngressAfter(rules, services', order))
  }

  lemma NewServicesFit(services: Services, pods: map<string, seq<Container>>, done: set<string>)
    requires ServicesFit(services) && done <= pods.Keys && forall p :: p in pods ==> '/' !in p
    ensures ServicesFit(WithServices(services, pods, done))
  {
    forall p | p in done ensures PodOfService(ServiceName(p)) == p && '/' !in ServiceName(p) {
      ServiceNameParses(p);
    }
  }

  lemma UpdatedMeansUnstable(rules: seq<Rule>, services: Services, order: seq<string>)
    requires RulesFit(rules) && ServicesFit(services) && Enumerates(order, services.Keys)
    ensures Stable(rules, services) ==> IngressAfter(rules, services, order) == rules
  {
    if Stable(rules, services) {
      NothingPublished(services, PathPods(rules), order);
    }
  }

  lemma {:induction false} NothingPublished(services: Services, taken: set<string>, order: seq<string>)
    requires forall n :: n in order ==> n in services && |n| >= 4
    requires forall n :: n in order && services[n].ports != [] ==> PodOfService(n) in taken
    ensures Published(services, taken, order) == []
  {
    if order != [] {
      NothingPublished(services, taken, order[..|order| - 1]);
    }
  }
}
