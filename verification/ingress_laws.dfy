/** What a pass over the ingress guarantees: rules agree with services, the session manager keeps its own, and exactly
    when a second pass is idle. */
module IngressLaws {
  import opened Names
  import opened Model
  import opened Network

  lemma {:induction false} PublishedRules(services: Services, taken: set<string>, order: seq<string>, rule: Rule)
    requires forall n :: n in order ==> n in services && |n| >= 4
    ensures rule in Published(services, taken, order) <==>
            exists n :: n in order && PodOfService(n) !in taken && rule in RulesFor(PodOfService(n), services[n])
  {
    hide RulesFor;
    if order != [] {
      var front, last := order[..|order| - 1], order[|order| - 1];
      PublishedRules(services, taken, front, rule);
      assert order == front + [last];
      assert forall n :: n in order <==> n in front || n == last;
    }
  }

  lemma RulesForParse(pod: string, service: Service, rule: Rule)
    requires '/' !in pod && rule in RulesFor(pod, service)
    ensures '/' in rule.path && rule.path != SESSION_MANAGER_PATH && PodOfPath(rule.path) == pod
  {
    var i :| 0 <= i < |service.ports| && RulesFor(pod, service)[i] == rule;
    RulePathParses(pod, service.ports[i].name);
    RulePathIsNotSessionManager(pod, service.ports[i].name);
  }

  /** A rule of the ingress after a pass is either kept or published for a service whose pod had none. */
  lemma RuleAfter(rules: seq<Rule>, services: Services, order: seq<string>, rule: Rule)
    requires RulesFit(rules) && ServicesFit(services) && Enumerates(order, services.Keys)
    ensures rule in IngressAfter(rules, services, order) <==>
            || rule in Kept(rules, services)
            || exists n :: n in services && PodOfService(n) !in PathPods(rules) &&
                           rule in RulesFor(PodOfService(n), services[n])
  {
    PublishedRules(services, PathPods(rules), order, rule);
  }

  lemma AfterIsFit(rules: seq<Rule>, services: Services, order: seq<string>)
    requires RulesFit(rules) && ServicesFit(services) && Enumerates(order, services.Keys)
    ensures RulesFit(IngressAfter(rules, services, order))
  {
    var after := IngressAfter(rules, services, order);
    forall i | 0 <= i < |after| ensures '/' in after[i].path {
      RuleAfter(rules, services, order, after[i]);
      if after[i] !in Kept(rules, services) {
        var n :| n in services && after[i] in RulesFor(PodOfService(n), services[n]);
        RulesForParse(PodOfService(n), services[n], after[i]);
      }
    }
  }

  /** The pods with rules after a pass: those that had rules and have a service, and those newly published. */
  lemma PodsWithRules(rules: seq<Rule>, services: Services, order: seq<string>, pod: string)
    requires RulesFit(rules) && ServicesFit(services) && Enumerates(order, services.Keys)
    ensures pod in PathPods(IngressAfter(rules, services, order)) <==>
            if pod in PathPods(rules) then ServiceName(pod) in services
            else exists n :: n in services && PodOfService(n) == pod && services[n].ports != []
  {
    var after := IngressAfter(rules, services, order);
    if pod in PathPods(after) {
      var rule :| rule in after && '/' in rule.path && rule.path != SESSION_MANAGER_PATH && PodOfPath(rule.path) == pod;
      RuleAfter(rules, services, order, rule);
      if rule !in Kept(rules, services) {
        var n :| n in services && PodOfService(n) !in PathPods(rules) && rule in RulesFor(PodOfService(n), services[n]);
        RulesForParse(PodOfService(n), services[n], rule);
      }
    }
    if pod in PathPods(rules) && ServiceName(pod) in services {
      var rule :| rule in rules && '/' in rule.path && rule.path != SESSION_MANAGER_PATH && PodOfPath(rule.path) == pod;
      assert rule in Kept(rules, services);
    }
    if pod !in PathPods(rules) && exists n :: n in services && PodOfService(n) == pod && services[n].ports != [] {
      var n :| n in services && PodOfService(n) == pod && services[n].ports != [];
      var rule := RulesFor(pod, services[n])[0];
      RulesForParse(pod, services[n], rule);
      RuleAfter(rules, services, order, rule);
    }
  }

  /** With services named after pods and each with a port, the pods with rules are exactly the pods with a service. */
  lemma IngressAgreesWithServices(rules: seq<Rule>, services: Services, order: seq<string>, pod: string)
    requires RulesFit(rules) && ServicesFit(services) && Enumerates(order, services.Keys)
    requires forall n :: n in services ==> n == ServiceName(PodOfService(n)) && services[n].ports != []
    ensures pod in PathPods(IngressAfter(rules, services, order)) <==> ServiceName(pod) in services
  {
    PodsWithRules(rules, services, order, pod);
    ServiceNameParses(pod);
  }

  // ---- the session manager's rules ----

  function Managers(rules: seq<Rule>): seq<Rule> {
    if rules == [] then []
    else
      var front, last := rules[..|rules| - 1], rules[|rules| - 1];
      if last.path == SESSION_MANAGER_PATH then Managers(front) + [last] else Managers(front)
  }

  lemma {:induction false} ManagersKept(rules: seq<Rule>, services: Services)
    requires RulesFit(rules)
    ensures Managers(Kept(rules, services)) == Managers(rules)
  {
    if rules != [] {
      var front, last := rules[..|rules| - 1], rules[|rules| - 1];
      ManagersKept(front, services);
      assert (Kept(front, services) + [last])[..|Kept(front, services)|] == Kept(front, services);
    }
  }

  lemma {:induction false} NoMoreManagers(rules: seq<Rule>, more: seq<Rule>)
    requires forall rule :: rule in more ==> rule.path != SESSION_MANAGER_PATH
    ensures Managers(rules + more) == Managers(rules)
  {
    if more == [] {
      assert rules + more == rules;
    } else {
      var all := rules + more;
      assert all[..|all| - 1] == rules + more[..|more| - 1] && all[|all| - 1] == more[|more| - 1];
      NoMoreManagers(rules, more[..|more| - 1]);
    }
  }

  /** No pass adds, drops or reorders the session manager's rules. */
  lemma SessionManagerUntouched(rules: seq<Rule>, services: Services, order: seq<string>)
    requires RulesFit(rules) && ServicesFit(services) && Enumerates(order, services.Keys)
    ensures Managers(IngressAfter(rules, services, order)) == Managers(rules)
  {
    var more := Published(services, PathPods(rules), order);
    forall rule | rule in more ensures rule.path != SESSION_MANAGER_PATH {
      PublishedRules(services, PathPods(rules), order, rule);
      var n :| n in order && PodOfService(n) !in PathPods(rules) && rule in RulesFor(PodOfService(n), services[n]);
      RulesForParse(PodOfService(n), services[n], rule);
    }
    ManagersKept(rules, services);
    NoMoreManagers(Kept(rules, services), more);
  }

  // ---- the second pass ----

  lemma {:induction false} LiveIsKept(rules: seq<Rule>, services: Services)
    requires RulesFit(rules) && forall i :: 0 <= i < |rules| ==> IsLive(rules[i], services)
    ensures Kept(rules, services) == rules
  {
    hide IsLive, PodOfPath, ServiceName;
    if rules != [] {
      LiveIsKept(rules[..|rules| - 1], services);
      assert IsLive(rules[|rules| - 1], services);
    }
  }

  lemma AllLiveIsKept(rules: seq<Rule>, services: Services)
    requires RulesFit(rules)
    ensures Kept(rules, services) == rules <==> forall i :: 0 <= i < |rules| ==> IsLive(rules[i], services)
  {
    hide IsLive;
    if forall i :: 0 <= i < |rules| ==> IsLive(rules[i], services) {
      LiveIsKept(rules, services);
    }
    assert forall i :: 0 <= i < |rules| ==> rules[i] in rules;
  }

  lemma {:induction false} SomethingPublished(services: Services, taken: set<string>, order: seq<string>, n: string)
    requires forall m :: m in order ==> m in services && |m| >= 4
    requires n in order && services[n].ports != [] && PodOfService(n) !in taken
    ensures Published(services, taken, order) != []
  {
    var front, last := order[..|order| - 1], order[|order| - 1];
    if last == n {
      assert |RulesFor(PodOfService(n), services[n])| == |services[n].ports|;
    } else {
      assert order == front + [last];
      SomethingPublished(services, taken, front, n);
    }
  }

  /** A dead rule is neither kept nor published again in the same pass, because its pod still counts as having rules. */
  lemma DeadRuleDisappears(rules: seq<Rule>, services: Services, order: seq<string>, rule: Rule)
    requires RulesFit(rules) && ServicesFit(services) && Enumerates(order, services.Keys)
    requires rule in rules && '/' in rule.path && !IsLive(rule, services)
    ensures rule !in IngressAfter(rules, services, order)
  {
    RuleAfter(rules, services, order, rule);
    assert PodOfPath(rule.path) in PathPods(rules);
    if rule in IngressAfter(rules, services, order) {
      var n :| n in services && PodOfService(n) !in PathPods(rules) && rule in RulesFor(PodOfService(n), services[n]);
      RulesForParse(PodOfService(n), services[n], rule);
    }
  }

  /** What the two loops report is exact: the ingress is as it was if and only if nothing was removed or appended. */
  lemma IdleIffStable(rules: seq<Rule>, services: Services, order: seq<string>)
    requires RulesFit(rules) && ServicesFit(services) && Enumerates(order, services.Keys)
    ensures IngressAfter(rules, services, order) == rules <==> Stable(rules, services)
  {
    UpdatedMeansUnstable(rules, services, order);
    AllLiveIsKept(rules, services);
    hide IsLive, PathPods;
    if Kept(rules, services) != rules {
      var i :| 0 <= i < |rules| && !IsLive(rules[i], services);
      DeadRuleDisappears(rules, services, order, rules[i]);
      assert rules[i] in rules;
    } else if n :| n in services && services[n].ports != [] && PodOfService(n) !in PathPods(rules) {
      SomethingPublished(services, PathPods(rules), order, n);
      assert |IngressAfter(rules, services, order)| > |rules|;
    }
  }

  /** A second pass changes nothing exactly when, for every service with a port, there is a service named as that of its
      pod would be. */
  lemma SecondPassIsIdle(rules: seq<Rule>, services: Services, order: seq<string>, again: seq<string>)
    requires RulesFit(rules) && ServicesFit(services)
    requires Enumerates(order, services.Keys) && Enumerates(again, services.Keys)
    ensures var once := IngressAfter(rules, services, order);
            && RulesFit(once)
            && (IngressAfter(once, services, again) == once <==>
                forall n :: n in services && services[n].ports != [] ==> ServiceName(PodOfService(n)) in services)
  {
    var once := IngressAfter(rules, services, order);
    AfterIsFit(rules, services, order);
    IdleIffStable(once, services, again);
    if forall n :: n in services && services[n].ports != [] ==> ServiceName(PodOfService(n)) in services {
      NamedServicesAreStable(rules, services, order);
    } else {
      var n :| n in services && services[n].ports != [] && ServiceName(PodOfService(n)) !in services;
      MisnamedServiceIsUnstable(rules, services, order, n);
    }
  }

  lemma NamedServicesAreStable(rules: seq<Rule>, services: Services, order: seq<string>)
    requires RulesFit(rules) && ServicesFit(services) && Enumerates(order, services.Keys)
    requires RulesFit(IngressAfter(rules, services, order))
    requires forall n :: n in services && services[n].ports != [] ==> ServiceName(PodOfService(n)) in services
    ensures Stable(IngressAfter(rules, services, order), services)
  {
    var after := IngressAfter(rules, services, order);
    forall i | 0 <= i < |after| ensures IsLive(after[i], services) {
      RuleAfter(rules, services, order, after[i]);
      if after[i] !in Kept(rules, services) {
        var n :| n in services && after[i] in RulesFor(PodOfService(n), services[n]);
        RulesForParse(PodOfService(n), services[n], after[i]);
      }
    }
    AllLiveIsKept(after, services);
    forall n | n in services && services[n].ports != [] ensures PodOfService(n) in PathPods(after) {
      PodsWithRules(rules, services, order, PodOfService(n));
    }
  }

  lemma MisnamedServiceIsUnstable(rules: seq<Rule>, services: Services, order: seq<string>, n: string)
    requires RulesFit(rules) && ServicesFit(services) && Enumerates(order, services.Keys)
    requires RulesFit(IngressAfter(rules, services, order))
    requires n in services && services[n].ports != [] && ServiceName(PodOfService(n)) !in services
    ensures !Stable(IngressAfter(rules, services, order), services)
  {
    var after := IngressAfter(rules, services, order);
    PodsWithRules(rules, services, order, PodOfService(n));
    if PodOfService(n) in PathPods(after) {
      var rule :| rule in after && '/' in rule.path && rule.path != SESSION_MANAGER_PATH &&
                  PodOfPath(rule.path) == PodOfService(n);
      AllLiveIsKept(after, services);
    }
  }

  // ---- rules and ports ----

  function PortRule(pod: string, port: Port): Rule {
    Rule(RulePath(pod, port.name), ServiceName(pod), port.number)
  }

  /** Every pod with a rule has all the rules its ports call for, and no rule but the session manager's is anything
      else. */
  ghost predicate MatchesPorts(rules: seq<Rule>, ports: string -> seq<Port>) {
    && (forall pod, i :: pod in PathPods(rules) && 0 <= i < |ports(pod)| ==> PortRule(pod, ports(pod)[i]) in rules)
    && (forall rule :: rule in rules && '/' in rule.path && rule.path != SESSION_MANAGER_PATH ==>
                         CalledFor(rule, ports))
  }

  ghost predicate CalledFor(rule: Rule, ports: string -> seq<Port>)
    requires '/' in rule.path
  {
    var pod := PodOfPath(rule.path);
    exists i :: 0 <= i < |ports(pod)| && rule == PortRule(pod, ports(pod)[i])
  }

  lemma PathPodsHaveNoSlash(rules: seq<Rule>, pod: string)
    requires pod in PathPods(rules)
    ensures '/' !in pod
  {
    hide PodOfPath;
    var rule :| rule in rules && '/' in rule.path && PodOfPath(rule.path) == pod;
    PodOfPathHasNoSlash(rule.path);
  }

  lemma PodOfPathHasNoSlash(path: string)
    requires '/' in path
    ensures '/' !in PodOfPath(path)
  {
    HasSecondPiece(path);
    Strings.PiecesHaveNoSeparator(path, '/', 1);
  }

  ghost predicate PortsAre(services: Services, ports: string -> seq<Port>)
    requires ServicesFit(services)
  {
    forall n :: n in services ==> n == ServiceName(PodOfService(n)) && services[n].ports == ports(PodOfService(n))
  }

  /** A published rule is called for by a port of its pod. */
  lemma PublishedIsCalledFor(services: Services, ports: string -> seq<Port>, n: string, rule: Rule)
    requires ServicesFit(services) && PortsAre(services, ports)
    requires n in services && rule in RulesFor(PodOfService(n), services[n])
    ensures '/' in rule.path && CalledFor(rule, ports)
  {
    var pod := PodOfService(n);
    RulesForParse(pod, services[n], rule);
    var i :| 0 <= i < |services[n].ports| && RulesFor(pod, services[n])[i] == rule;
    assert rule == PortRule(pod, ports(pod)[i]);
  }

  /** A rule is kept when its pod is. */
  lemma PodRuleIsAfter(rules: seq<Rule>, services: Services, order: seq<string>, ports: string -> seq<Port>,
                       pod: string, i: nat)
    requires RulesFit(rules) && ServicesFit(services) && Enumerates(order, services.Keys)
    requires MatchesPorts(rules, ports) && PortsAre(services, ports)
    requires pod in PathPods(IngressAfter(rules, services, order)) && i < |ports(pod)|
    ensures PortRule(pod, ports(pod)[i]) in IngressAfter(rules, services, order)
  {
    var rule := PortRule(pod, ports(pod)[i]);
    hide CalledFor;
    PodsWithRules(rules, services, order, pod);
    RuleAfter(rules, services, order, rule);
    if pod in PathPods(rules) {
      PathPodsHaveNoSlash(rules, pod);
      RulePathParses(pod, ports(pod)[i].name);
      RulePathIsNotSessionManager(pod, ports(pod)[i].name);
      assert rule in Kept(rules, services);
    } else {
      var n :| n in services && PodOfService(n) == pod && services[n].ports != [];
      assert RulesFor(pod, services[n])[i] == rule;
    }
  }

  /** A pass keeps rules and ports matched when services carry the ports their pods call for. */
  lemma PassKeepsMatch(rules: seq<Rule>, services: Services, order: seq<string>, ports: string -> seq<Port>)
    requires RulesFit(rules) && ServicesFit(services) && Enumerates(order, services.Keys) && MatchesPorts(rules, ports)
    requires PortsAre(services, ports)
    ensures MatchesPorts(IngressAfter(rules, services, order), ports)
  {
    hide PortsAre, CalledFor, PathPods, PortRule, IngressAfter;
    var after := IngressAfter(rules, services, order);
    forall pod, i | pod in PathPods(after) && 0 <= i < |ports(pod)| ensures PortRule(pod, ports(pod)[i]) in after {
      PodRuleIsAfter(rules, services, order, ports, pod, i);
    }
    forall rule | rule in after && '/' in rule.path && rule.path != SESSION_MANAGER_PATH
      ensures CalledFor(rule, ports)
    {
      RuleAfter(rules, services, order, rule);
      if rule !in Kept(rules, services) {
        var n :| n in services && rule in RulesFor(PodOfService(n), services[n]);
        PublishedIsCalledFor(services, ports, n, rule);
      }
    }
  }
}
