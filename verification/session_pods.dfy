/** The pods a session shares: one per session template, restored while somebody is connected. */
module SessionPods {
  import opened Names
  import opened Model
  import opened ModelLaws
  import opened Placement
  import opened RegistrationManager
  import opened ReadinessReport
  import opened Allocator
  import opened Cluster
  import opened Conditions

  // ---- specification ----

  function TemplatePodNames(cfg: Config): set<string> {
    set t | t in cfg.sessionTemplates :: SessionPodName(cfg.session, t.name)
  }

  function ConnectedInSpec(clients: map<string, bool>): set<string> {
    set c | c in clients && clients[c]
  }

  function FoundPods(cfg: Config, pods: Pods): Pods {
    Listing(pods, cfg.session, SessionPod)
  }

  /** Containers of the first session template whose pod has this name. */
  function ContainersFor(cfg: Config, templates: seq<SessionTemplate>, pod: string): seq<Container> {
    if templates == [] then []
    else if SessionPodName(cfg.session, templates[0].name) == pod then templates[0].containers
    else ContainersFor(cfg, templates[1..], pod)
  }

  function WithRestored(cfg: Config, pods: Pods, created: set<string>): Pods {
    map p | p in pods.Keys + created ::
      if p in pods then pods[p]
      else ClusterPod(cfg.session, SessionPod, ContainersFor(cfg, cfg.sessionTemplates, p), Missing)
  }

  /** The template pods that are missing, which a pass restores only while somebody is connected. */
  function ToRestore(cfg: Config, clients: map<string, bool>, pods: Pods): set<string> {
    if ConnectedInSpec(clients) == {} then {} else TemplatePodNames(cfg) - FoundPods(cfg, pods).Keys
  }

  ghost predicate SessionPodPass(cfg: Config, clients: map<string, bool>, now: int, pods: Pods, before: Registrations,
                                 idle: set<string>, busy: set<string>, created: set<string>,
                                 pods': Pods, after: Registrations)
  {
    var found := FoundPods(cfg, pods).Keys;
    && idle <= (if ConnectedInSpec(clients) == {} then found else {})
    && busy <= (if ConnectedInSpec(clients) == {} then {} else found)
    && created <= ToRestore(cfg, clients, pods)
    && after == RegistrationsAfter(before, idle, busy, cfg.session, now)
    && pods' == WithRestored(cfg, pods, created)
  }

  // ---- the count test ----

  function NamesOf(cfg: Config): seq<string> {
    seq(|cfg.sessionTemplates|, i requires 0 <= i < |cfg.sessionTemplates| =>
      SessionPodName(cfg.session, cfg.sessionTemplates[i].name))
  }

  lemma {:induction false} FewerThanListed(xs: seq<string>)
    ensures |set x | x in xs| <= |xs|
  {
    if xs == [] {
      assert (set x | x in xs) == {};
    } else {
      var rest := xs[1..];
      FewerThanListed(rest);
      assert xs == [xs[0]] + rest;
      assert (set x | x in xs) == {xs[0]} + set x | x in rest;
    }
  }

  lemma NamesAreTemplatePods(cfg: Config)
    ensures (set x | x in NamesOf(cfg)) == TemplatePodNames(cfg)
  {
    forall p | p in TemplatePodNames(cfg) ensures p in NamesOf(cfg) {
      var t :| t in cfg.sessionTemplates && SessionPodName(cfg.session, t.name) == p;
      var i :| 0 <= i < |cfg.sessionTemplates| && cfg.sessionTemplates[i] == t;
      assert NamesOf(cfg)[i] == p;
    }
  }

  lemma SameSizeSubset(a: set<string>, b: set<string>)
    requires a <= b && |a| >= |b|
    ensures a == b
  {
    SubsetSize(b - a, b);
    assert b == a + (b - a);
    assert |b| == |a| + |b - a|;
  }

  /** When the found pods are template pods, as many pods as templates means that none is missing; and the converse holds
      when template names are distinct. */
  lemma CountTestIsSetTest(cfg: Config, found: set<string>)
    requires found <= TemplatePodNames(cfg)
    ensures |found| == |cfg.sessionTemplates| ==> found == TemplatePodNames(cfg)
    ensures found == TemplatePodNames(cfg) &&
            (forall i, j :: 0 <= i < j < |cfg.sessionTemplates| ==>
                              cfg.sessionTemplates[i].name != cfg.sessionTemplates[j].name)
            ==> |found| == |cfg.sessionTemplates|
  {
    NamesAreTemplatePods(cfg);
    FewerThanListed(NamesOf(cfg));
    if |found| == |cfg.sessionTemplates| {
      SameSizeSubset(found, TemplatePodNames(cfg));
    }
    if forall i, j :: 0 <= i < j < |cfg.sessionTemplates| ==>
                        cfg.sessionTemplates[i].name != cfg.sessionTemplates[j].name {
      forall i, j | 0 <= i < j < |cfg.sessionTemplates| ensures NamesOf(cfg)[i] != NamesOf(cfg)[j] {
        var s := cfg.session + "-";
        assert SessionPodName(cfg.session, cfg.sessionTemplates[i].name)[|s|..] == cfg.sessionTemplates[i].name;
        assert SessionPodName(cfg.session, cfg.sessionTemplates[j].name)[|s|..] == cfg.sessionTemplates[j].name;
      }
      DistinctSize(NamesOf(cfg));
    }
  }

  // ---- the pass ----

  method CountConnectedClients(clients: map<string, bool>) returns (count: nat)
    ensures count == |ConnectedInSpec(clients)|
  {
    count := 0;
    var todo := clients.Keys;
    ghost var seen: set<string> := {};
    while todo != {}
      invariant todo <= clients.Keys && count == |seen|
      invariant seen == set c | c in clients && clients[c] && c !in todo
    {
      var c :| c in todo;
      if clients[c] {
        count := count + 1;
        seen := seen + {c};
      }
      todo := todo - {c};
    }
    assert seen == ConnectedInSpec(clients);
  }

  /** What a pod advertises on an address. */
  function PathsOn(ip: string, pod: string, containers: seq<Container>): seq<string> {
    var ports := AllPorts(containers);
    seq(|ports|, i requires 0 <= i < |ports| => HTTPS + ip + PortPath(pod, ports[i].name))
  }

  /** One entry per template pod, not ready, with its paths on the given address; of two templates with one name the
      later counts. */
  function ReportOf(cfg: Config, ip: string, templates: seq<SessionTemplate>): (report: map<string, PodStatus>)
    ensures report.Keys == set t | t in templates :: SessionPodName(cfg.session, t.name)
    ensures forall p :: p in report ==> !report[p].ready
  {
    if templates == [] then map[]
    else
      var front, last := templates[..|templates| - 1], templates[|templates| - 1];
      assert templates == front + [last];
      var pod := SessionPodName(cfg.session, last.name);
      ReportOf(cfg, ip, front)[pod := PodStatus(false, PathsOn(ip, pod, last.containers))]
  }

  /** The status of the session's own pods, rebuilt by every pass, and the conditions of the session. */
  class Report {
    var podsStatus: map<string, PodStatus>
    var conditions: seq<Condition>

    constructor (conditions: seq<Condition>)
      ensures podsStatus == map[] && this.conditions == conditions
    {
      podsStatus, this.conditions := map[], conditions;
    }

    /** Removes the Ready condition that is there and appends the given one. */
    method SetReadyCondition(status: ConditionStatus, reason: string)
      modifies this`conditions
      ensures ReadyIs(old(conditions), conditions, status, reason)
    {
      var index := ContainsCondition(conditions, TYPE_READY);
      WithoutReady(conditions, index);
      ghost var before := conditions;
      if index != -1 {
        conditions := conditions[..index] + conditions[index + 1..];
      }
      ReadyAppended(before, conditions, status, reason);
      conditions := conditions + [Condition(TYPE_READY, status, reason)];
    }

    method BuildPodsStatus(cfg: Config, ip: string)
      modifies this`podsStatus
      ensures podsStatus == ReportOf(cfg, ip, cfg.sessionTemplates)
    {
      podsStatus := map[];
      for i := 0 to |cfg.sessionTemplates|
        invariant podsStatus == ReportOf(cfg, ip, cfg.sessionTemplates[..i])
      {
        var template := cfg.sessionTemplates[i];
        assert cfg.sessionTemplates[..i + 1][..i] == cfg.sessionTemplates[..i];
        var pod := SessionPodName(cfg.session, template.name);
        var status := BuildPodStatus(pod, template.containers);
        var paths := ConcatIngressExternalIp(ip, status.paths);
        assert paths == PathsOn(ip, pod, template.containers);
        podsStatus := podsStatus[pod := status.(paths := paths)];
      }
      assert cfg.sessionTemplates[..|cfg.sessionTemplates|] == cfg.sessionTemplates;
    }

    method SetPodsStatusToTrue()
      modifies this`podsStatus
      ensures podsStatus == map p | p in old(podsStatus) :: old(podsStatus)[p].(ready := true)
    {
      var todo := podsStatus.Keys;
      while todo != {}
        invariant todo <= podsStatus.Keys == old(podsStatus).Keys
        invariant forall p :: p in podsStatus ==>
                                podsStatus[p] == if p in todo then old(podsStatus)[p]
                                                 else old(podsStatus)[p].(ready := true)
      {
        var p :| p in todo;
        podsStatus := podsStatus[p := podsStatus[p].(ready := true)];
        todo := todo - {p};
      }
    }
  }

  method ManageGCRegistrationsForSessionPods(api: ApiServer, session: string, connected: nat, found: set<string>,
                                             registered: set<string>, now: int)
    returns (ok: bool, ghost idle: set<string>, ghost busy: set<string>)
    requires forall n :: n in found ==> (n in registered <==> n in api.registrations)
    modifies api`registrations, api`gcNamespace
    ensures idle <= (if connected == 0 then found else {}) && busy <= (if connected == 0 then {} else found)
    ensures ok ==> idle + busy == found
    ensures api.registrations == RegistrationsAfter(old(api.registrations), idle, busy, session, now)
  {
    ghost var before := api.registrations;
    ok, idle, busy := true, {}, {};
    var todo := found;
    while todo != {}
      invariant todo <= found && idle + busy == found - todo
      invariant if connected == 0 then busy == {} else idle == {}
      invariant api.registrations == RegistrationsAfter(before, idle, busy, session, now)
    {
      var name :| name in todo;
      if connected == 0 {
        NextIdle(before, idle, busy, session, now, name);
      } else {
        NextBusy(before, idle, busy, session, now, name);
      }
      if name !in registered && connected == 0 {
        ok := CreateGCRegistration(api, name, session, now);
      } else if name in registered && connected != 0 {
        ok := api.DeleteRegistration(name);
      }
      if !ok {
        return;
      }
      todo := todo - {name};
      idle, busy := if connected == 0 then idle + {name} else idle, if connected == 0 then busy else busy + {name};
    }
    ok := true;
  }

  ghost function NamesUpTo(cfg: Config, i: nat): set<string>
    requires i <= |cfg.sessionTemplates|
  {
    set t | t in cfg.sessionTemplates[..i] :: SessionPodName(cfg.session, t.name)
  }

  method RestorePods(api: ApiServer, cfg: Config, report: Report, found: set<string>)
    returns (ok: bool, ghost created: set<string>)
    requires forall p :: p in report.podsStatus ==> !report.podsStatus[p].ready
    requires report.podsStatus.Keys == TemplatePodNames(cfg)
    requires forall p :: p in TemplatePodNames(cfg) ==> (p in found <==> p in api.pods)
    modifies api`pods, report`podsStatus
    ensures created <= TemplatePodNames(cfg) - found
    ensures ok ==> created == TemplatePodNames(cfg) - found
    ensures api.pods == WithRestored(cfg, old(api.pods), created)
    ensures report.podsStatus == old(report.podsStatus)
  {
    hide *;
    ghost var before, status := api.pods, report.podsStatus;
    ok, created := true, {};
    RestoredSoFar(cfg, before, found, 0);
    for i := 0 to |cfg.sessionTemplates|
      invariant created == NamesUpTo(cfg, i) - found
      invariant report.podsStatus == status
      invariant api.pods == WithRestored(cfg, before, created)
    {
      var template := cfg.sessionTemplates[i];
      var key := SessionPodName(cfg.session, template.name);
      RestoredSoFar(cfg, before, found, i);
      if key !in found {
        report.podsStatus := report.podsStatus[key := report.podsStatus[key].(ready := false)];
        ok := api.CreatePod(key, ClusterPod(cfg.session, SessionPod, template.containers, Missing));
        if !ok {
          return;
        }
        created := created + {key};
      }
      RestoredSoFar(cfg, before, found, i + 1);
    }
    RestoredSoFar(cfg, before, found, |cfg.sessionTemplates|);
  }

  lemma RestoredSoFar(cfg: Config, before: Pods, found: set<string>, i: nat)
    requires i <= |cfg.sessionTemplates|
    requires forall p :: p in TemplatePodNames(cfg) ==> (p in found <==> p in before)
    ensures NamesUpTo(cfg, i) <= TemplatePodNames(cfg)
    ensures i == 0 ==> NamesUpTo(cfg, i) == {} && WithRestored(cfg, before, {}) == before
    ensures i == |cfg.sessionTemplates| ==> NamesUpTo(cfg, i) == TemplatePodNames(cfg)
    ensures i < |cfg.sessionTemplates| ==>
              var template := cfg.sessionTemplates[i];
              var key := SessionPodName(cfg.session, template.name);
              var created, pods := NamesUpTo(cfg, i) - found, WithRestored(cfg, before, NamesUpTo(cfg, i) - found);
              && key in TemplatePodNames(cfg)
              && NamesUpTo(cfg, i + 1) == NamesUpTo(cfg, i) + {key}
              && (key !in found ==>
                    WithRestored(cfg, before, created + {key})
                    == if key in pods then pods
                       else pods[key := ClusterPod(cfg.session, SessionPod, template.containers, Missing)])
  {
    if i < |cfg.sessionTemplates| {
      assert cfg.sessionTemplates[..i + 1] == cfg.sessionTemplates[..i] + [cfg.sessionTemplates[i]];
      FirstContainers(cfg, cfg.sessionTemplates, i);
      hide ContainersFor, WithRestored;
      RestoredOneMore(cfg, before, NamesUpTo(cfg, i) - found, SessionPodName(cfg.session, cfg.sessionTemplates[i].name));
    } else {
      assert cfg.sessionTemplates[..i] == cfg.sessionTemplates;
    }
    NothingRestored(cfg, before);
  }

  lemma RestoredOneMore(cfg: Config, before: Pods, created: set<string>, key: string)
    ensures var pods := WithRestored(cfg, before, created);
            WithRestored(cfg, before, created + {key})
            == if key in pods then pods
               else pods[key := ClusterPod(cfg.session, SessionPod, ContainersFor(cfg, cfg.sessionTemplates, key), Missing)]
    ensures key in WithRestored(cfg, before, created) <==> key in before || key in created
  {
    hide ContainersFor;
  }

  /** Of the templates of one name, the first decides what is spawned: later ones find the pod there. */
  lemma {:induction false} FirstContainers(cfg: Config, templates: seq<SessionTemplate>, i: nat)
    requires i < |templates|
    ensures var key := SessionPodName(cfg.session, templates[i].name);
            key in (set t | t in templates[..i] :: SessionPodName(cfg.session, t.name)) ||
            ContainersFor(cfg, templates, key) == templates[i].containers
  {
    if i > 0 {
      FirstContainers(cfg, templates[1..], i - 1);
      assert templates[..i] == [templates[0]] + templates[1..][..i - 1];
    }
  }

  predicate PodsAreReady(found: Pods) {
    forall p :: p in found ==> found[p].readiness == ReadyTrue || found[p].readiness == Missing
  }

  /** Every template pod is there, and none is known not to be ready. */
  predicate AllUp(cfg: Config, pods: Pods) {
    |FoundPods(cfg, pods)| == |cfg.sessionTemplates| && PodsAreReady(FoundPods(cfg, pods))
  }

  function AllTrue(report: map<string, PodStatus>): map<string, PodStatus> {
    map p | p in report :: report[p].(ready := true)
  }

  /** The outcome for the Ready condition: none where the pass takes no branch that sets it. */
  ghost predicate ConditionsAfter(cfg: Config, clients: map<string, bool>, pods: Pods, ok: bool,
                                  before: seq<Condition>, after: seq<Condition>)
  {
    if AllUp(cfg, pods) then ReadyIs(before, after, IsTrue, PODS_READY_REASON)
    else if |FoundPods(cfg, pods)| == |cfg.sessionTemplates| then ReadyIs(before, after, IsFalse, PODS_NOT_READY_REASON)
    else if ConnectedInSpec(clients) == {} then after == before
    else if ok then ReadyIs(before, after, IsUnknown, PODS_RECONCILED_REASON)
    else ReadyIs(before, after, IsFalse, PODS_NOT_READY_REASON)
  }

  /** Rebuilds the report, manages the registrations and restores what is missing. It panics, before it changes anything,
      exactly when the address is unknown. A failed registration write neither stops the pass nor shows in its result, so
      `clean` says whether there was one. */
  method ReconcileSessionPods(api: ApiServer, cfg: Config, clients: map<string, bool>, now: int, ip: Option<string>,
                              registered: set<string>, report: Report)
    returns (panicked: bool, ok: bool, ghost clean: bool, ghost idle: set<string>, ghost busy: set<string>,
             ghost created: set<string>)
    requires FoundPods(cfg, api.pods).Keys <= TemplatePodNames(cfg)
    requires forall p :: p in TemplatePodNames(cfg) && p in api.pods ==> p in FoundPods(cfg, api.pods)
    requires forall n :: n in FoundPods(cfg, api.pods) ==> (n in registered <==> n in api.registrations)
    modifies api`registrations, api`gcNamespace, api`pods, report
    ensures panicked <==> ip.None?
    ensures panicked ==> !ok && unchanged(api) && unchanged(report)
    ensures !panicked ==>
              && SessionPodPass(cfg, clients, now, old(api.pods), old(api.registrations), idle, busy, created,
                                api.pods, api.registrations)
              && (ok ==> created == ToRestore(cfg, clients, old(api.pods)))
              && (clean ==> idle + busy == FoundPods(cfg, old(api.pods)).Keys)
              && ConditionsAfter(cfg, clients, old(api.pods), ok, old(report.conditions), report.conditions)
              && var blank := ReportOf(cfg, ip.value, cfg.sessionTemplates);
                 report.podsStatus == if AllUp(cfg, old(api.pods)) then AllTrue(blank) else blank
  {
    hide *;
    ghost var pods, before, conditions := api.pods, api.registrations, report.conditions;
    panicked, ok, clean, idle, busy, created := false, false, false, {}, {}, {};
    var found := FoundPods(cfg, api.pods);
    var connected := CountConnectedClients(clients);
    if ip.None? {
      panicked := true;
      return;
    }
    report.BuildPodsStatus(cfg, ip.value);
    ReportNames(cfg, ip.value);
    ok, idle, busy := ManageGCRegistrationsForSessionPods(api, cfg.session, connected, found.Keys, registered, now);
    clean, created, ok := ok, {}, true;
    NothingRestored(cfg, pods);
    CountTestDecides(cfg, clients, pods);
    if |cfg.sessionTemplates| == |found| {
      if PodsAreReady(found) && ip.Some? {
        report.SetPodsStatusToTrue();
        report.SetReadyCondition(IsTrue, PODS_READY_REASON);
      } else {
        report.SetReadyCondition(IsFalse, PODS_NOT_READY_REASON);
      }
    } else if connected > 0 {
      ok, created := RestorePods(api, cfg, report, found.Keys);
      if !ok {
        report.SetReadyCondition(IsFalse, PODS_NOT_READY_REASON);
      } else {
        report.SetReadyCondition(IsUnknown, PODS_RECONCILED_REASON);
      }
    }
    ReportMeans(cfg, pods, ip.value);
    ConditionsMean(cfg, clients, pods, ok, conditions, report.conditions);
    PassHolds(cfg, clients, now, pods, before, idle, busy, created, api.pods, api.registrations);
  }

  lemma ConditionsMean(cfg: Config, clients: map<string, bool>, pods: Pods, ok: bool, before: seq<Condition>,
                       after: seq<Condition>)
    ensures ConditionsAfter(cfg, clients, pods, ok, before, after) <==>
            if AllUp(cfg, pods) then ReadyIs(before, after, IsTrue, PODS_READY_REASON)
            else if |FoundPods(cfg, pods)| == |cfg.sessionTemplates| then ReadyIs(before, after, IsFalse, PODS_NOT_READY_REASON)
            else if |ConnectedInSpec(clients)| == 0 then after == before
            else if ok then ReadyIs(before, after, IsUnknown, PODS_RECONCILED_REASON)
            else ReadyIs(before, after, IsFalse, PODS_NOT_READY_REASON)
  {
    hide AllUp, FoundPods, ReadyIs, ConnectedInSpec;
    assert |ConnectedInSpec(clients)| == 0 <==> ConnectedInSpec(clients) == {};
  }

  lemma CountTestDecides(cfg: Config, clients: map<string, bool>, pods: Pods)
    requires FoundPods(cfg, pods).Keys <= TemplatePodNames(cfg)
    requires forall p :: p in TemplatePodNames(cfg) && p in pods ==> p in FoundPods(cfg, pods)
    ensures |FoundPods(cfg, pods)| == |cfg.sessionTemplates| || |ConnectedInSpec(clients)| == 0
            ==> ToRestore(cfg, clients, pods) == {}
    ensures |ConnectedInSpec(clients)| > 0
            ==> ToRestore(cfg, clients, pods) == TemplatePodNames(cfg) - FoundPods(cfg, pods).Keys
    ensures forall p :: p in TemplatePodNames(cfg) ==> (p in FoundPods(cfg, pods).Keys <==> p in pods)
  {
    var found := FoundPods(cfg, pods);
    assert |found| == |found.Keys| && found.Keys <= pods.Keys;
    CountTestIsSetTest(cfg, found.Keys);
    hide TemplatePodNames, FoundPods;
  }

  lemma ReportMeans(cfg: Config, pods: Pods, ip: string)
    ensures AllUp(cfg, pods) <==>
            |FoundPods(cfg, pods)| == |cfg.sessionTemplates| && PodsAreReady(FoundPods(cfg, pods))
    ensures var blank := ReportOf(cfg, ip, cfg.sessionTemplates);
            AllTrue(blank) == map p | p in blank :: blank[p].(ready := true)
  {
    hide ReportOf, PodsAreReady, FoundPods;
  }

  lemma PassHolds(cfg: Config, clients: map<string, bool>, now: int, pods: Pods, before: Registrations,
                  idle: set<string>, busy: set<string>, created: set<string>, pods': Pods, after: Registrations)
    requires var none, found := |ConnectedInSpec(clients)| == 0, FoundPods(cfg, pods).Keys;
             && idle <= (if none then found else {}) && busy <= (if none then {} else found)
    requires created <= ToRestore(cfg, clients, pods)
    requires after == RegistrationsAfter(before, idle, busy, cfg.session, now)
    requires pods' == WithRestored(cfg, pods, created)
    ensures SessionPodPass(cfg, clients, now, pods, before, idle, busy, created, pods', after)
  {
    hide ToRestore, RegistrationsAfter, WithRestored, FoundPods, ConnectedInSpec;
  }

  lemma ReportNames(cfg: Config, ip: string)
    ensures var report := ReportOf(cfg, ip, cfg.sessionTemplates);
            report.Keys == TemplatePodNames(cfg) && forall p :: p in report ==> !report[p].ready
  {}

  lemma NothingRestored(cfg: Config, pods: Pods)
    ensures WithRestored(cfg, pods, {}) == pods
  {}

  // ---- what a pass reports ----

  /** No found pod says that it is not ready: a missing condition is taken for a good sign. */
  ghost predicate NoneUnready(found: Pods) {
    forall p :: p in found ==> match found[p].readiness
                               case ReadyTrue => true
                               case Missing => true
                               case ReadyFalse => false
                               case ReadyUnknown => false
  }

  /** The report of a pass calls all pods ready or none, and all exactly when there are as many as templates and none says
      that it is not ready. The Ready condition says the same, while pods are missing that somebody needs whether they were
      restored, and else what it said before. */
  lemma ReportIsExact(cfg: Config, clients: map<string, bool>, pods: Pods, ip: string, ok: bool,
                      before: seq<Condition>, after: seq<Condition>, report: map<string, PodStatus>)
    requires ConditionsAfter(cfg, clients, pods, ok, before, after)
    requires var blank := ReportOf(cfg, ip, cfg.sessionTemplates);
             report == if AllUp(cfg, pods) then AllTrue(blank) else blank
    ensures var found := FoundPods(cfg, pods);
            var complete := |found| == |cfg.sessionTemplates|;
            && (forall p :: p in report ==> (report[p].ready <==> complete && NoneUnready(found)))
            && (complete ==>
                  ReadyIs(before, after, if NoneUnready(found) then IsTrue else IsFalse,
                          if NoneUnready(found) then "SessionPodsReady" else "SessionPodsNotReady"))
            && (!complete && (exists c :: c in clients && clients[c]) ==>
                  ReadyIs(before, after, if ok then IsUnknown else IsFalse,
                          if ok then "PodsHaveBeenReconciled" else "SessionPodsNotReady"))
            && (!complete && !(exists c :: c in clients && clients[c]) ==> after == before)
  {
    hide ReadyIs, ReportOf, FoundPods;
    assert ConnectedInSpec(clients) == {} <==> !(exists c :: c in clients && clients[c]) by {
      assert forall c :: c in ConnectedInSpec(clients) <==> c in clients && clients[c];
    }
  }

  /** The report has the paths of the last template of each name, port by port, on the address. */
  lemma {:induction false} ReportedPathsAre(cfg: Config, ip: string, templates: seq<SessionTemplate>, k: nat, i: nat, j: nat)
    requires k < |templates| && forall m :: k < m < |templates| ==> templates[m].name != templates[k].name
    requires i < |templates[k].containers| && j < |templates[k].containers[i].ports|
    ensures var containers, pod := templates[k].containers, cfg.session + "-" + templates[k].name;
            var n := PortCount(containers[..i]) + j;
            && pod in ReportOf(cfg, ip, templates)
            && |ReportOf(cfg, ip, templates)[pod].paths| == PortCount(containers) && n < PortCount(containers)
            && ReportOf(cfg, ip, templates)[pod].paths[n]
               == "https://" + ip + "/" + pod + "/" + containers[i].ports[j].name
  {
    var front, last := templates[..|templates| - 1], templates[|templates| - 1];
    assert templates == front + [last];
    var pod := SessionPodName(cfg.session, templates[k].name);
    if k < |front| {
      ReportedPathsAre(cfg, ip, front, k, i, j);
      var dash := cfg.session + "-";
      assert SessionPodName(cfg.session, last.name)[|dash|..] == last.name && pod[|dash|..] == templates[k].name;
    } else {
      PathsAre(ip, pod, last.containers, i, j);
    }
  }

  lemma PathsAre(ip: string, pod: string, containers: seq<Container>, i: nat, j: nat)
    requires i < |containers| && j < |containers[i].ports|
    ensures |PathsOn(ip, pod, containers)| == PortCount(containers)
    ensures PortCount(containers[..i]) + j < PortCount(containers)
    ensures PathsOn(ip, pod, containers)[PortCount(containers[..i]) + j]
            == "https://" + ip + "/" + pod + "/" + containers[i].ports[j].name
  {
    hide PortPath, AllPorts;
    AllPortsAt(containers, i, j);
    AllPortsLength(containers);
    PathIs(ip, pod, containers[i].ports[j].name);
  }

  lemma PathIs(ip: string, pod: string, port: string)
    ensures HTTPS + ip + PortPath(pod, port) == "https://" + ip + "/" + pod + "/" + port
  {
    assert "https://" + ip + "/" + pod + "/" + port == "https://" + ip + ("/" + pod + "/" + port);
  }

  // ---- what a pass guarantees ----

  /** Once the restoring pass is through, every template pod is there if anybody is connected; a found pod is registered
      exactly when nobody is. */
  lemma SessionPodsRestored(cfg: Config, clients: map<string, bool>, now: int, pods: Pods, before: Registrations,
                            idle: set<string>, busy: set<string>, created: set<string>, pods': Pods,
                            after: Registrations)
    requires SessionPodPass(cfg, clients, now, pods, before, idle, busy, created, pods', after)
    requires created == ToRestore(cfg, clients, pods) && idle + busy == FoundPods(cfg, pods).Keys
    requires forall p :: p in TemplatePodNames(cfg) && p in pods ==> p in FoundPods(cfg, pods)
    ensures ConnectedInSpec(clients) != {} ==> TemplatePodNames(cfg) <= FoundPods(cfg, pods').Keys
    ensures forall p :: p in FoundPods(cfg, pods) ==> (p in after <==> ConnectedInSpec(clients) == {})
  {
    if ConnectedInSpec(clients) != {} {
      forall p | p in TemplatePodNames(cfg) ensures p in FoundPods(cfg, pods') {
        assert p in FoundPods(cfg, pods) || p in created;
      }
    }
  }
}
