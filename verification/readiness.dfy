/** Reporting readiness and paths in the status, and finding the pods that must be spawned. */
module ReadinessReport {
  import opened Names
  import opened Model
  import opened SessionStatus
  import opened PodIndex
  import opened Placement
  import opened Allocator

  datatype PodToSpawn = PodToSpawn(name: string, containers: seq<Container>)

  // ---- the one-line definition ----

  /** A pod counts as ready when it is in the cluster with Ready=True and the address is known. */
  predicate PodIsReady(listed: Pods, ip: Option<string>, pod: string) {
    pod in listed && listed[pod].readiness == ReadyTrue && ip.Some?
  }

  predicate PathsRewritable(paths: seq<string>) {
    forall i :: 0 <= i < |paths| ==> Rewritable(paths[i])
  }

  ghost predicate StatusRewritable(status: Statuses) {
    forall c, p :: c in status && p in status[c].pods ==> PathsRewritable(status[c].pods[p].paths)
  }

  function Rewritten(ip: string, paths: seq<string>): seq<string>
    requires PathsRewritable(paths)
  {
    if ip == "" then paths else seq(|paths|, i requires 0 <= i < |paths| => WithHost(ip, paths[i]))
  }

  function ReportedPod(listed: Pods, ip: Option<string>, pod: string, before: PodStatus): PodStatus
    requires PathsRewritable(before.paths)
  {
    if PodIsReady(listed, ip, pod) then PodStatus(true, Rewritten(ip.value, before.paths))
    else PodStatus(false, before.paths)
  }

  function ReportedClient(listed: Pods, ip: Option<string>, entry: ClientStatus): ClientStatus
    requires forall p :: p in entry.pods ==> PathsRewritable(entry.pods[p].paths)
  {
    ClientStatus(
      entry.lastSeen,
      forall p :: p in entry.pods ==> PodIsReady(listed, ip, p),
      map p | p in entry.pods :: ReportedPod(listed, ip, p, entry.pods[p]))
  }

  /** The status with every pod and every client reported. */
  ghost function Reported(listed: Pods, ip: Option<string>, status: Statuses): Statuses
    requires StatusRewritable(status)
  {
    map c | c in status :: ReportedClient(listed, ip, status[c])
  }

  // ---- what the loops do ----

  method ConcatIngressExternalIp(ip: string, paths: seq<string>) returns (r: seq<string>)
    requires PathsRewritable(paths)
    ensures |r| == |paths| && forall i :: 0 <= i < |r| ==> r[i] == WithHost(ip, paths[i])
  {
    r := paths;
    for i := 0 to |paths|
      invariant |r| == |paths|
      invariant forall j :: 0 <= j < |r| ==> r[j] == if j < i then WithHost(ip, paths[j]) else paths[j]
    {
      if r[i][0] == '/' {
        r := r[i := HTTPS + ip + r[i]];
      } else {
        var rest := r[i][|HTTPS|..];
        rest := rest[Strings.Index(rest, '/')..];
        r := r[i := HTTPS + ip + rest];
      }
    }
  }

  /** One client's entry after one of its pods was set. */
  function EntryAfter(entry: ClientStatus, ready: bool, pod: string, ip: string): ClientStatus
    requires pod in entry.pods ==> PathsRewritable(entry.pods[pod].paths)
  {
    if pod in entry.pods then
      var pods := entry.pods[pod := PodStatus(ready, Rewritten(ip, entry.pods[pod].paths))];
      ClientStatus(entry.lastSeen, ready && forall p :: p in pods ==> pods[p].ready, pods)
    else entry.(ready := true)
  }

  method SetClientStatusReadiness(session: Session, ready: bool, pod: string, clients: seq<PodClient>, ip: string)
    requires StatusRewritable(session.status)
    requires forall i, j :: 0 <= i < j < |clients| ==> clients[i].id != clients[j].id
    modifies session
    ensures session.status.Keys == old(session.status).Keys
    ensures forall c :: c in session.status ==>
                          session.status[c] == if c in ClientIds(clients)
                                               then EntryAfter(old(session.status)[c], ready, pod, ip)
                                               else old(session.status)[c]
  {
    ghost var before := session.status;
    for k := 0 to |clients|
      invariant session.status.Keys == before.Keys
      invariant forall c :: c in before ==>
                              session.status[c] == if c in ClientIds(clients)[..k]
                                                   then EntryAfter(before[c], ready, pod, ip) else before[c]
    {
      var id := clients[k].id;
      assert ClientIds(clients)[..k + 1] == ClientIds(clients)[..k] + [id];
      assert id !in ClientIds(clients)[..k];
      if id in session.status {
        var value := session.status[id];
        var topReadiness := true;
        if pod in value.pods {
          var podStatus := value.pods[pod].(ready := ready);
          if ip != "" {
            var paths := ConcatIngressExternalIp(ip, podStatus.paths);
            assert paths == Rewritten(ip, podStatus.paths);
            podStatus := podStatus.(paths := paths);
          }
          value := value.(pods := value.pods[pod := podStatus]);
          topReadiness := ready && forall p :: p in value.pods ==> value.pods[p].ready;
        }
        value := value.(ready := topReadiness);
        session.status := session.status[id := value];
      }
    }
    assert ClientIds(clients)[..|clients|] == ClientIds(clients);
  }

  /** The status once the pods of `done` are reported. */
  ghost predicate PartlyReported(listed: Pods, ip: Option<string>, before: Statuses, done: set<string>,
                                 status: Statuses)
    requires StatusRewritable(before)
  {
    && status.Keys == before.Keys
    && forall c :: c in status ==> PartlyReportedClient(listed, ip, before[c], done, status[c])
  }

  ghost predicate PartlyReportedClient(listed: Pods, ip: Option<string>, before: ClientStatus, done: set<string>,
                                       entry: ClientStatus)
    requires forall p :: p in before.pods ==> PathsRewritable(before.pods[p].paths)
  {
    && entry.lastSeen == before.lastSeen && entry.pods.Keys == before.pods.Keys
    && (forall p :: p in entry.pods ==>
                      entry.pods[p] == if p in done then ReportedPod(listed, ip, p, before.pods[p]) else before.pods[p])
    && (entry.pods.Keys <= done ==> (entry.ready <==> forall p :: p in entry.pods ==> PodIsReady(listed, ip, p)))
  }

  function AddressFor(listed: Pods, ip: Option<string>, pod: string): string {
    if PodIsReady(listed, ip, pod) then ip.value else ""
  }

  /** Whatever order the pods come in, the last of a client's pods settles its readiness. */
  lemma OneMoreReported(listed: Pods, ip: Option<string>, before: ClientStatus, done: set<string>, entry: ClientStatus,
                        pod: string)
    requires forall p :: p in before.pods ==> PathsRewritable(before.pods[p].paths)
    requires PartlyReportedClient(listed, ip, before, done, entry) && pod !in done && pod in entry.pods
    ensures var entry' := EntryAfter(entry, PodIsReady(listed, ip, pod), pod, AddressFor(listed, ip, pod));
            PartlyReportedClient(listed, ip, before, done + {pod}, entry')
  {
    var ready := PodIsReady(listed, ip, pod);
    var entry' := EntryAfter(entry, ready, pod, AddressFor(listed, ip, pod));
    assert entry'.pods[pod] == ReportedPod(listed, ip, pod, before.pods[pod]);
    if entry'.pods.Keys <= done + {pod} {
      assert forall p :: p in entry'.pods ==> entry'.pods[p].ready == PodIsReady(listed, ip, p);
    }
  }

  lemma NotMyPod(listed: Pods, ip: Option<string>, before: ClientStatus, done: set<string>, entry: ClientStatus,
                 pod: string)
    requires forall p :: p in before.pods ==> PathsRewritable(before.pods[p].paths)
    requires PartlyReportedClient(listed, ip, before, done, entry) && pod !in entry.pods
    ensures PartlyReportedClient(listed, ip, before, done + {pod}, entry)
  {}

  lemma RewrittenStaysRewritable(ip: string, paths: seq<string>)
    requires PathsRewritable(paths)
    ensures PathsRewritable(Rewritten(ip, paths))
  {
    forall i | 0 <= i < |paths| ensures Rewritable(WithHost(ip, paths[i])) {
      HostRecoverable(ip, paths[i]);
    }
  }

  lemma PartlyReportedIsRewritable(listed: Pods, ip: Option<string>, before: Statuses, done: set<string>,
                                   status: Statuses)
    requires StatusRewritable(before) && PartlyReported(listed, ip, before, done, status)
    ensures StatusRewritable(status) && Edges(status) == Edges(before)
  {
    forall c, p | c in status && p in status[c].pods ensures PathsRewritable(status[c].pods[p].paths) {
      assert PartlyReportedClient(listed, ip, before[c], done, status[c]);
      if p in done && PodIsReady(listed, ip, p) {
        RewrittenStaysRewritable(ip.value, before[c].pods[p].paths);
      }
    }
  }

  lemma ClientReported(listed: Pods, ip: Option<string>, before: ClientStatus, done: set<string>, entry: ClientStatus)
    requires forall p :: p in before.pods ==> PathsRewritable(before.pods[p].paths)
    requires PartlyReportedClient(listed, ip, before, done, entry) && before.pods.Keys <= done
    ensures entry == ReportedClient(listed, ip, before)
  {
    assert entry.pods == ReportedClient(listed, ip, before).pods;
  }

  lemma AllReported(listed: Pods, ip: Option<string>, before: Statuses, done: set<string>, status: Statuses)
    requires StatusRewritable(before) && PartlyReported(listed, ip, before, done, status)
    requires Allocated(before) <= done
    ensures status == Reported(listed, ip, before)
  {
    hide PartlyReportedClient, ReportedClient;
    forall c | c in status ensures status[c] == ReportedClient(listed, ip, before[c]) {
      assert forall p :: p in before[c].pods ==> p in Allocated(before);
      ClientReported(listed, ip, before[c], done, status[c]);
    }
  }

  lemma NothingReported(listed: Pods, ip: Option<string>, before: Statuses)
    requires StatusRewritable(before) && forall c :: c in before ==> before[c].pods != map[]
    ensures PartlyReported(listed, ip, before, {}, before)
  {
    forall c | c in before ensures PartlyReportedClient(listed, ip, before[c], {}, before[c]) {
      assert before[c].pods.Keys != {};
    }
  }

  // ---- spawning ----

  function SpawnNames(spawn: seq<PodToSpawn>): seq<string> {
    seq(|spawn|, i requires 0 <= i < |spawn| => spawn[i].name)
  }

  /** Exactly the pods of `done` that the cluster lacks, each once, with their template's containers. */
  ghost predicate SpawnsMissing(cfg: Config, listed: Pods, done: set<string>, spawn: seq<PodToSpawn>) {
    && (forall p :: p in SpawnNames(spawn) <==> p in done && p !in listed)
    && (forall i, j :: 0 <= i < j < |spawn| ==> spawn[i].name != spawn[j].name)
    && forall i :: 0 <= i < |spawn| ==>
                     && TemplateOf(spawn[i].name) in Templates(cfg)
                     && spawn[i].containers == Templates(cfg)[TemplateOf(spawn[i].name)].containers
  }

  lemma OneMoreSpawn(cfg: Config, listed: Pods, done: set<string>, spawn: seq<PodToSpawn>, pod: string)
    requires SpawnsMissing(cfg, listed, done, spawn) && pod !in done && TemplateOf(pod) in Templates(cfg)
    ensures pod in listed ==> SpawnsMissing(cfg, listed, done + {pod}, spawn)
    ensures pod !in listed ==>
              SpawnsMissing(cfg, listed, done + {pod},
                            spawn + [PodToSpawn(pod, Templates(cfg)[TemplateOf(pod)].containers)])
  {
    var spawn' := spawn + [PodToSpawn(pod, Templates(cfg)[TemplateOf(pod)].containers)];
    assert SpawnNames(spawn') == SpawnNames(spawn) + [pod];
    assert forall i :: 0 <= i < |spawn| ==> SpawnNames(spawn)[i] == spawn[i].name;
  }

  // ---- the pass over the index ----

  /** Reports one indexed pod to all its clients and lists it for spawning if the cluster lacks it. */
  method ReconcilePod(session: Session, template: ClientTemplate, pods: seq<Pod>, i: nat, grouped: ReuseMap,
                      ip: Option<string>, spawn: seq<PodToSpawn>, ghost listed: Pods, ghost before: Statuses,
                      ghost done: set<string>, ghost connected: set<string>)
    returns (spawn': seq<PodToSpawn>)
    requires i < |pods| && Agrees(Edges(before), connected, template.name, pods) && pods[i].name !in done
    requires template.name in Templates(session.cfg) && Templates(session.cfg)[template.name] == template
    requires ReuseAgrees(listed, {}, grouped) && StatusRewritable(before)
    requires PartlyReported(listed, ip, before, done, session.status)
    requires SpawnsMissing(session.cfg, listed, done, spawn)
    modifies session
    ensures PartlyReported(listed, ip, before, done + {pods[i].name}, session.status)
    ensures SpawnsMissing(session.cfg, listed, done + {pods[i].name}, spawn')
  {
    var pod := pods[i];
    PartlyReportedIsRewritable(listed, ip, before, done, session.status);
    assert PodAgrees(Edges(before), connected, pod);
    assert Candidates(grouped, template.name) == Idle(listed, {}, template.name);
    OneMoreSpawn(session.cfg, listed, done, spawn, pod.name);
    ghost var status := session.status;
    hide SpawnsMissing, PartlyReported, StatusRewritable, Agrees;
    spawn' := spawn;
    if pod.name !in Candidates(grouped, template.name) {
      SetClientStatusReadiness(session, false, pod.name, pod.clients, "");
      spawn' := spawn + [PodToSpawn(pod.name, template.containers)];
    } else {
      var value := Candidates(grouped, template.name)[pod.name];
      if value.readiness == ReadyTrue && ip.Some? {
        SetClientStatusReadiness(session, true, pod.name, pod.clients, ip.value);
      } else {
        SetClientStatusReadiness(session, false, pod.name, pod.clients, "");
      }
    }
    PodReported(listed, ip, before, done, status, template.name, pods, i, connected, session.status);
  }

  lemma PodReported(listed: Pods, ip: Option<string>, before: Statuses, done: set<string>, status: Statuses,
                    template: string, pods: seq<Pod>, i: nat, connected: set<string>, status': Statuses)
    requires i < |pods| && Agrees(Edges(before), connected, template, pods) && pods[i].name !in done
    requires StatusRewritable(before) && PartlyReported(listed, ip, before, done, status) && StatusRewritable(status)
    requires status'.Keys == status.Keys
    requires forall c :: c in status' ==>
                           status'[c] == if c in ClientIds(pods[i].clients)
                                         then EntryAfter(status[c], PodIsReady(listed, ip, pods[i].name),
                                                         pods[i].name, AddressFor(listed, ip, pods[i].name))
                                         else status[c]
    ensures PartlyReported(listed, ip, before, done + {pods[i].name}, status')
  {
    var pod := pods[i].name;
    UsersListed(before, connected, template, pods, i);
    hide Agrees, EntryAfter, PartlyReportedClient;
    forall c | c in status' ensures PartlyReportedClient(listed, ip, before[c], done + {pod}, status'[c]) {
      assert PartlyReportedClient(listed, ip, before[c], done, status[c]);
      assert c in ClientIds(pods[i].clients) <==> c in Users(before, pod);
      SamePods(listed, ip, before[c], done, status[c]);
      if pod in status[c].pods {
        OneMoreReported(listed, ip, before[c], done, status[c], pod);
      } else {
        NotMyPod(listed, ip, before[c], done, status[c], pod);
      }
    }
  }

  lemma SamePods(listed: Pods, ip: Option<string>, before: ClientStatus, done: set<string>, entry: ClientStatus)
    requires forall p :: p in before.pods ==> PathsRewritable(before.pods[p].paths)
    requires PartlyReportedClient(listed, ip, before, done, entry)
    ensures entry.pods.Keys == before.pods.Keys
  {}

  ghost function NameSet(pods: seq<Pod>): set<string> {
    set p | p in ListNames(pods)
  }

  /** Reports all indexed pods of one template. */
  method ReconcileTemplate(session: Session, template: ClientTemplate, pods: seq<Pod>, grouped: ReuseMap,
                           ip: Option<string>, spawn: seq<PodToSpawn>, ghost listed: Pods, ghost before: Statuses,
                           ghost done: set<string>, ghost connected: set<string>)
    returns (spawn': seq<PodToSpawn>)
    requires Agrees(Edges(before), connected, template.name, pods)
    requires template.name in Templates(session.cfg) && Templates(session.cfg)[template.name] == template
    requires ReuseAgrees(listed, {}, grouped) && StatusRewritable(before)
    requires PartlyReported(listed, ip, before, done, session.status)
    requires SpawnsMissing(session.cfg, listed, done, spawn)
    requires NameSet(pods) !! done
    modifies session
    ensures PartlyReported(listed, ip, before, done + NameSet(pods), session.status)
    ensures SpawnsMissing(session.cfg, listed, done + NameSet(pods), spawn')
  {
    hide *;
    spawn' := spawn;
    NamePrefixes(connected, before, template.name, pods, done);
    for i := 0 to |pods|
      invariant PartlyReported(listed, ip, before, done + NameSet(pods[..i]), session.status)
      invariant SpawnsMissing(session.cfg, listed, done + NameSet(pods[..i]), spawn')
    {
      spawn' := ReconcilePod(session, template, pods, i, grouped, ip, spawn', listed, before,
                             done + NameSet(pods[..i]), connected);
      assert done + NameSet(pods[..i + 1]) == done + NameSet(pods[..i]) + {pods[i].name};
    }
    assert pods[..|pods|] == pods;
  }

  lemma NamePrefixes(connected: set<string>, before: Statuses, template: string, pods: seq<Pod>, done: set<string>)
    requires Agrees(Edges(before), connected, template, pods) && NameSet(pods) !! done
    ensures done + NameSet(pods[..0]) == done
    ensures forall i :: 0 <= i < |pods| ==>
                          && pods[i].name !in done + NameSet(pods[..i])
                          && NameSet(pods[..i + 1]) == NameSet(pods[..i]) + {pods[i].name}
  {
    forall i | 0 <= i < |pods|
      ensures pods[i].name !in done + NameSet(pods[..i])
      ensures NameSet(pods[..i + 1]) == NameSet(pods[..i]) + {pods[i].name}
    {
      assert ListNames(pods)[i] == pods[i].name;
      assert ListNames(pods[..i + 1]) == ListNames(pods[..i]) + [pods[i].name];
    }
  }

  /** Reports every pod of the index and lists the ones to spawn. */
  method ReconcilePods(session: Session, index: Index, grouped: ReuseMap, ip: Option<string>,
                       ghost listed: Pods, ghost connected: set<string>)
    returns (spawn: seq<PodToSpawn>)
    requires IndexAgrees(session.cfg, Edges(session.status), connected, index)
    requires ReuseAgrees(listed, {}, grouped) && StatusRewritable(session.status)
    requires forall c :: c in session.status ==> session.status[c].pods != map[]
    modifies session
    ensures old(StatusRewritable(session.status))
    ensures session.status == Reported(listed, ip, old(session.status))
    ensures SpawnsMissing(session.cfg, listed, Allocated(old(session.status)), spawn)
  {
    hide Agrees, PartlyReported, SpawnsMissing, StatusRewritable, TemplateOf, Templates, NameSet, ReuseAgrees;
    ghost var before := session.status;
    NothingReported(listed, ip, before);
    spawn := [];
    NothingSpawned(session.cfg, listed);
    var todo := index.Keys;
    ghost var done: set<string> := {};
    while todo != {}
      invariant todo <= index.Keys
      invariant forall p :: p in done ==> TemplateOf(p) in index && TemplateOf(p) !in todo && p in Allocated(before)
      invariant forall t :: t in index && t !in todo ==> NameSet(index[t].pods) <= done
      invariant PartlyReported(listed, ip, before, done, session.status)
      invariant SpawnsMissing(session.cfg, listed, done, spawn)
    {
      var t :| t in todo;
      NamesOfTemplate(before, connected, t, index[t].pods);
      TemplateIsNamed(session.cfg, t);
      spawn := ReconcileTemplate(session, index[t].template, index[t].pods, grouped, ip, spawn, listed, before, done,
                                 connected);
      todo, done := todo - {t}, done + NameSet(index[t].pods);
    }
    EveryPodDone(session.cfg, before, connected, index, done);
    AllReported(listed, ip, before, done, session.status);
  }

  lemma NothingSpawned(cfg: Config, listed: Pods)
    ensures SpawnsMissing(cfg, listed, {}, [])
  {}

  lemma TemplateIsNamed(cfg: Config, t: string)
    requires t in Templates(cfg)
    ensures Templates(cfg)[t].name == t
  {}

  lemma NamesOfTemplate(before: Statuses, connected: set<string>, template: string, pods: seq<Pod>)
    requires Agrees(Edges(before), connected, template, pods)
    ensures forall p :: p in NameSet(pods) ==> TemplateOf(p) == template && p in Allocated(before)
  {
    PodsListed(before, connected, template, pods);
  }

  lemma EveryPodDone(cfg: Config, before: Statuses, connected: set<string>, index: Index, done: set<string>)
    requires IndexAgrees(cfg, Edges(before), connected, index)
    requires forall t :: t in index ==> NameSet(index[t].pods) <= done
    requires forall p :: p in done ==> p in Allocated(before)
    ensures done == Allocated(before)
  {
    forall p | p in Allocated(before) ensures p in done {
      var c :| c in before && p in before[c].pods;
      assert (c, p).1 == p && (c, p) in Edges(before);
      var t := TemplateOf(p);
      PodsListed(before, connected, t, index[t].pods);
      assert p in PodsOf(before, t);
      assert p in NameSet(index[t].pods);
    }
  }
}
