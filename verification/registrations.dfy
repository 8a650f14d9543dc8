/** Opening and closing GC registrations for the pods of a session. */
module RegistrationManager {
  import opened Names
  import opened Model
  import opened PodIndex
  import opened Allocator
  import opened Cluster

  /** Registrations after the pods of `idle` were registered and those of `busy` were not. */
  function RegistrationsAfter(before: Registrations, idle: set<string>, busy: set<string>, session: string, now: int)
    : Registrations
  {
    map n | n in before.Keys + idle && n !in busy ::
      if n in before then before[n] else Registration(session, now, Timeout)
  }

  /** Pods of the cluster or of the status that no connected client is on. */
  ghost function IdlePods(status: Statuses, listed: Pods): set<string> {
    set p | p in Allocated(status) + listed.Keys && !HasConnectedUser(status, p)
  }

  ghost function BusyPods(status: Statuses): set<string> {
    set p | p in Allocated(status) && HasConnectedUser(status, p)
  }

  predicate IsEmpty(pod: Pod) {
    forall k :: 0 <= k < |pod.clients| ==> !pod.clients[k].connected
  }

  /** Names in the reuse map under some of its templates. */
  ghost function ReuseNamesOf(reuse: ReuseMap, templates: set<string>): set<string> {
    set t, p | t in templates && t in reuse && p in reuse[t] :: p
  }

  ghost function ReuseNames(reuse: ReuseMap): set<string> {
    ReuseNamesOf(reuse, reuse.Keys)
  }

  ghost function PodsByEmptiness(pods: seq<Pod>, empty: bool): set<string> {
    set i | 0 <= i < |pods| && IsEmpty(pods[i]) == empty :: pods[i].name
  }

  /** Names of the empty or of the other pods in the index, under some of its templates. */
  ghost function IndexNamesOf(index: Index, templates: set<string>, empty: bool): set<string> {
    set t, p | t in templates && t in index && p in PodsByEmptiness(index[t].pods, empty) :: p
  }

  ghost function IndexNames(index: Index, empty: bool): set<string> {
    IndexNamesOf(index, index.Keys, empty)
  }

  method PodIsEmpty(pod: Pod) returns (empty: bool)
    ensures empty == IsEmpty(pod)
  {
    empty := true;
    for i := 0 to |pod.clients|
      invariant empty && forall k :: 0 <= k < i ==> !pod.clients[k].connected
    {
      if pod.clients[i].connected {
        return false;
      }
    }
  }

  /** An indexed pod is empty exactly when no connected client is on it. */
  lemma EmptyMeansNoConnectedUser(status: Statuses, template: string, pods: seq<Pod>, i: nat)
    requires Agrees(Edges(status), ConnectedClients(status), template, pods) && i < |pods|
    ensures IsEmpty(pods[i]) <==> !HasConnectedUser(status, pods[i].name)
    ensures pods[i].name in Allocated(status)
  {
    var pod := pods[i];
    assert PodAgrees(Edges(status), ConnectedClients(status), pod);
    assert forall k :: 0 <= k < |pod.clients| ==> (pod.clients[k].id, pod.name) in Edges(status);
    assert (pod.clients[0].id, pod.name) in Edges(status);
    if HasConnectedUser(status, pod.name) {
      var c :| c in status && pod.name in status[c].pods && Connected(status[c]);
      var e := (c, pod.name);
      assert e in Edges(status) && TemplateOf(e.1) == template;
      assert Lists(pods, e.0, e.1);
    }
  }

  lemma IndexNamesAre(cfg: Config, status: Statuses, index: Index, empty: bool)
    requires IndexAgrees(cfg, Edges(status), ConnectedClients(status), index)
    ensures IndexNames(index, empty) == set p | p in Allocated(status) && HasConnectedUser(status, p) != empty
  {
    forall p | p in IndexNames(index, empty) ensures p in Allocated(status) && HasConnectedUser(status, p) != empty {
      var t :| t in index && p in PodsByEmptiness(index[t].pods, empty);
      var i :| 0 <= i < |index[t].pods| && IsEmpty(index[t].pods[i]) == empty && index[t].pods[i].name == p;
      EmptyMeansNoConnectedUser(status, t, index[t].pods, i);
    }
    forall p | p in Allocated(status) && HasConnectedUser(status, p) != empty ensures p in IndexNames(index, empty) {
      var c :| c in status && p in status[c].pods;
      var e := (c, p);
      assert e in Edges(status);
      var pods := index[TemplateOf(p)].pods;
      assert Lists(pods, e.0, e.1);
      var i :| 0 <= i < |pods| && pods[i].name == p && Holds(pods[i], c);
      EmptyMeansNoConnectedUser(status, TemplateOf(p), pods, i);
      assert p in PodsByEmptiness(pods, empty);
    }
  }

  lemma ReuseNamesAre(listed: Pods, names: set<string>, reuse: ReuseMap)
    requires ReuseAgrees(listed, names, reuse)
    ensures ReuseNames(reuse) == listed.Keys - names
  {
    forall p | p in ReuseNames(reuse) ensures p in listed.Keys - names {
      var t :| t in reuse && p in reuse[t];
      assert Candidates(reuse, t) == Idle(listed, names, t);
    }
    forall p | p in listed.Keys - names ensures p in ReuseNames(reuse) {
      var t := TemplateOf(p);
      assert Candidates(reuse, t) == Idle(listed, names, t);
      assert p in Idle(listed, names, t) && p in Candidates(reuse, t);
    }
  }

  /** What the index and the reuse map call idle and busy is what the status and the cluster say. */
  lemma NamesAre(cfg: Config, status: Statuses, listed: Pods, index: Index, reuse: ReuseMap)
    requires IndexAgrees(cfg, Edges(status), ConnectedClients(status), index)
    requires ReuseAgrees(listed, Allocated(status), reuse)
    ensures ReuseNames(reuse) + IndexNames(index, true) == IdlePods(status, listed)
    ensures IndexNames(index, false) == BusyPods(status)
  {
    IndexNamesAre(cfg, status, index, true);
    IndexNamesAre(cfg, status, index, false);
    ReuseNamesAre(listed, Allocated(status), reuse);
    assert forall p :: HasConnectedUser(status, p) ==> p in Allocated(status);
  }

  lemma NextIdle(before: Registrations, idle: set<string>, busy: set<string>, session: string, now: int, name: string)
    requires name !in busy
    ensures var soFar := RegistrationsAfter(before, idle, busy, session, now);
            RegistrationsAfter(before, idle + {name}, busy, session, now)
            == if name in before || name in soFar then soFar else soFar[name := Registration(session, now, Timeout)]
  {}

  lemma NextBusy(before: Registrations, idle: set<string>, busy: set<string>, session: string, now: int, name: string)
    requires name !in idle
    ensures var soFar := RegistrationsAfter(before, idle, busy, session, now);
            RegistrationsAfter(before, idle, busy + {name}, session, now)
            == if name !in before then soFar else soFar - {name}
  {}

  /** Makes sure of the namespace that holds the registrations, then registers the name. */
  method CreateGCRegistration(api: ApiServer, name: string, session: string, now: int) returns (ok: bool)
    modifies api`registrations, api`gcNamespace
    ensures old(api.gcNamespace) || ok ==> api.gcNamespace
    ensures api.registrations == if ok && name !in old(api.registrations)
                                 then old(api.registrations)[name := Registration(session, now, Timeout)]
                                 else old(api.registrations)
  {
    ok := api.CreateNamespace();
    if ok {
      ok := api.CreateRegistration(name, session, now);
    }
  }

  /** How far a pass has come: the registrations are those of `before` with `idle` registered and `busy` not. */
  ghost predicate SoFar(api: ApiServer, before: Registrations, idle: set<string>, busy: set<string>, session: string,
                        now: int)
    reads api
  {
    idle !! busy && api.registrations == RegistrationsAfter(before, idle, busy, session, now)
  }

  method RegisterPods(api: ApiServer, session: string, names: set<string>, registered: set<string>, now: int,
                      ghost before: Registrations, ghost idle: set<string>)
    returns (ok: bool, ghost idle': set<string>)
    requires SoFar(api, before, idle, {}, session, now)
    requires forall n :: n in names ==> (n in registered <==> n in before)
    modifies api`registrations, api`gcNamespace
    ensures idle <= idle' <= idle + names && (ok ==> idle' == idle + names)
    ensures SoFar(api, before, idle', {}, session, now)
  {
    ok, idle' := true, idle;
    var todo := names;
    while todo != {}
      invariant todo <= names && idle + (names - todo) == idle'
      invariant SoFar(api, before, idle', {}, session, now)
    {
      var name :| name in todo;
      NextIdle(before, idle', {}, session, now, name);
      if name !in registered {
        ok := CreateGCRegistration(api, name, session, now);
        if !ok {
          return;
        }
      }
      todo, idle' := todo - {name}, idle' + {name};
    }
    assert idle' == idle + names;
    ok := true;
  }

  method RegisterReusable(api: ApiServer, session: string, reuse: ReuseMap, registered: set<string>, now: int,
                          ghost before: Registrations)
    returns (ok: bool, ghost idle: set<string>)
    requires forall n :: n in ReuseNames(reuse) ==> (n in registered <==> n in before)
    requires SoFar(api, before, {}, {}, session, now)
    modifies api`registrations, api`gcNamespace
    ensures idle <= ReuseNames(reuse) && (ok ==> idle == ReuseNames(reuse))
    ensures SoFar(api, before, idle, {}, session, now)
  {
    ok, idle := true, {};
    var todo := reuse.Keys;
    while todo != {}
      invariant todo <= reuse.Keys
      invariant idle == ReuseNamesOf(reuse, reuse.Keys - todo)
      invariant SoFar(api, before, idle, {}, session, now)
    {
      var t :| t in todo;
      assert ReuseNamesOf(reuse, reuse.Keys - (todo - {t})) == ReuseNamesOf(reuse, reuse.Keys - todo) + reuse[t].Keys;
      assert forall p :: p in reuse[t] ==> p in ReuseNames(reuse);
      ok, idle := RegisterPods(api, session, reuse[t].Keys, registered, now, before, idle);
      if !ok {
        return;
      }
      todo := todo - {t};
    }
    ok := true;
    assert reuse.Keys - todo == reuse.Keys;
  }

  /** Registers the empty pods of one template and deregisters the others. */
  method ManagePods(api: ApiServer, session: string, pods: seq<Pod>, registered: set<string>, now: int,
                    ghost before: Registrations, ghost idle: set<string>, ghost busy: set<string>,
                    ghost allIdle: set<string>, ghost allBusy: set<string>)
    returns (ok: bool, ghost idle': set<string>, ghost busy': set<string>)
    requires SoFar(api, before, idle, busy, session, now)
    requires idle <= allIdle && busy <= allBusy && allIdle !! allBusy
    requires PodsByEmptiness(pods, true) <= allIdle && PodsByEmptiness(pods, false) <= allBusy
    requires forall n :: n in allIdle + allBusy ==> (n in registered <==> n in before)
    modifies api`registrations, api`gcNamespace
    ensures idle <= idle' <= idle + PodsByEmptiness(pods, true)
    ensures busy <= busy' <= busy + PodsByEmptiness(pods, false)
    ensures ok ==> idle' == idle + PodsByEmptiness(pods, true) && busy' == busy + PodsByEmptiness(pods, false)
    ensures SoFar(api, before, idle', busy', session, now)
  {
    ok, idle', busy' := true, idle, busy;
    for i := 0 to |pods|
      invariant idle' == idle + PodsByEmptiness(pods[..i], true)
      invariant busy' == busy + PodsByEmptiness(pods[..i], false)
      invariant SoFar(api, before, idle', busy', session, now)
    {
      var pod := pods[i];
      OnePodMore(pods, i);
      var isEmpty := PodIsEmpty(pod);
      if isEmpty {
        assert pod.name in PodsByEmptiness(pods, true);
        NextIdle(before, idle', busy', session, now, pod.name);
        idle' := idle' + {pod.name};
      } else {
        assert pod.name in PodsByEmptiness(pods, false);
        NextBusy(before, idle', busy', session, now, pod.name);
        busy' := busy' + {pod.name};
      }
      if pod.name !in registered && isEmpty {
        ok := CreateGCRegistration(api, pod.name, session, now);
      } else if pod.name in registered && !isEmpty {
        ok := api.DeleteRegistration(pod.name);
      }
      if !ok {
        idle', busy' := idle + PodsByEmptiness(pods[..i], true), busy + PodsByEmptiness(pods[..i], false);
        PrefixPods(pods, i);
        return;
      }
    }
    assert pods[..|pods|] == pods;
  }

  lemma OnePodMore(pods: seq<Pod>, i: nat)
    requires i < |pods|
    ensures PodsByEmptiness(pods[..i + 1], true)
            == PodsByEmptiness(pods[..i], true) + if IsEmpty(pods[i]) then {pods[i].name} else {}
    ensures PodsByEmptiness(pods[..i + 1], false)
            == PodsByEmptiness(pods[..i], false) + if IsEmpty(pods[i]) then {} else {pods[i].name}
  {
    var longer, shorter := pods[..i + 1], pods[..i];
    assert longer == shorter + [pods[i]];
    assert forall j :: 0 <= j < i ==> longer[j] == shorter[j];
    assert longer[i] == pods[i];
  }

  lemma PrefixPods(pods: seq<Pod>, i: nat)
    requires i <= |pods|
    ensures forall empty :: PodsByEmptiness(pods[..i], empty) <= PodsByEmptiness(pods, empty)
  {
    assert forall j :: 0 <= j < i ==> pods[..i][j] == pods[j];
  }

  lemma IndexNamesSplit(index: Index, todo: set<string>, t: string, empty: bool)
    requires t in index && t in todo
    ensures IndexNamesOf(index, index.Keys - (todo - {t}), empty)
            == IndexNamesOf(index, index.Keys - todo, empty) + PodsByEmptiness(index[t].pods, empty)
    ensures PodsByEmptiness(index[t].pods, empty) <= IndexNames(index, empty)
    ensures IndexNamesOf(index, index.Keys - todo, empty) <= IndexNames(index, empty)
  {
    hide PodsByEmptiness;
    assert index.Keys - (todo - {t}) == (index.Keys - todo) + {t};
  }

  lemma IdleAndBusy(cfg: Config, status: Statuses, listed: Pods, index: Index, reuse: ReuseMap,
                    before: Registrations, session: string, now: int)
    requires IndexAgrees(cfg, Edges(status), ConnectedClients(status), index)
    requires ReuseAgrees(listed, Allocated(status), reuse)
    ensures ReuseNames(reuse) + IndexNames(index, true) == IdlePods(status, listed)
    ensures IndexNames(index, false) == BusyPods(status)
    ensures IdlePods(status, listed) !! BusyPods(status)
    ensures IdlePods(status, listed) + BusyPods(status) <= Allocated(status) + listed.Keys
    ensures IndexNamesOf(index, {}, true) == {} && IndexNamesOf(index, {}, false) == {}
    ensures IndexNamesOf(index, index.Keys, true) == IndexNames(index, true)
    ensures IndexNamesOf(index, index.Keys, false) == IndexNames(index, false)
    ensures RegistrationsAfter(before, {}, {}, session, now) == before
  {
    NamesAre(cfg, status, listed, index, reuse);
  }

  lemma SoFarMeans(api: ApiServer, before: Registrations, idle: set<string>, busy: set<string>, session: string,
                   now: int)
    ensures SoFar(api, before, idle, busy, session, now) <==>
            idle !! busy && api.registrations == RegistrationsAfter(before, idle, busy, session, now)
  {}

  /** Registers the idle pods and deregisters the busy ones, working from the names registered when the pass began.
      Stops at the first failed write. */
  method ManageGCRegistrations(api: ApiServer, cfg: Config, index: Index, reuse: ReuseMap, registered: set<string>,
                               now: int, ghost status: Statuses, ghost listed: Pods)
    returns (ok: bool, ghost idle: set<string>, ghost busy: set<string>)
    requires IndexAgrees(cfg, Edges(status), ConnectedClients(status), index)
    requires ReuseAgrees(listed, Allocated(status), reuse)
    requires forall n :: n in Allocated(status) + listed.Keys ==> (n in registered <==> n in api.registrations)
    modifies api`registrations, api`gcNamespace
    ensures idle <= IdlePods(status, listed) && busy <= BusyPods(status)
    ensures ok ==> idle == IdlePods(status, listed) && busy == BusyPods(status)
    ensures api.registrations == RegistrationsAfter(old(api.registrations), idle, busy, cfg.session, now)
  {
    hide *;
    ghost var before := api.registrations;
    ghost var allIdle, allBusy := IdlePods(status, listed), BusyPods(status);
    ghost var reusable := ReuseNames(reuse);
    IdleAndBusy(cfg, status, listed, index, reuse, before, cfg.session, now);
    SoFarMeans(api, before, {}, {}, cfg.session, now);
    busy := {};
    ok, idle := RegisterReusable(api, cfg.session, reuse, registered, now, before);
    SoFarMeans(api, before, idle, busy, cfg.session, now);
    if !ok {
      return;
    }
    var todo := index.Keys;
    assert index.Keys - todo == {};
    while todo != {}
      invariant todo <= index.Keys
      invariant idle == reusable + IndexNamesOf(index, index.Keys - todo, true)
      invariant busy == IndexNamesOf(index, index.Keys - todo, false)
      invariant SoFar(api, before, idle, busy, cfg.session, now)
    {
      var t :| t in todo;
      IndexNamesSplit(index, todo, t, true);
      IndexNamesSplit(index, todo, t, false);
      ok, idle, busy := ManagePods(api, cfg.session, index[t].pods, registered, now, before, idle, busy,
                                   allIdle, allBusy);
      SoFarMeans(api, before, idle, busy, cfg.session, now);
      if !ok {
        return;
      }
      todo := todo - {t};
    }
    ok := true;
    assert index.Keys - todo == index.Keys;
    SoFarMeans(api, before, idle, busy, cfg.session, now);
  }
}
