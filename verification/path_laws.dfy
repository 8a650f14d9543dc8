/** What a status advertises after a pass, letter by letter. */
module PathLaws {
  import opened Names
  import opened Model
  import opened ModelLaws
  import opened SessionStatus
  import opened Placement
  import opened RegistrationManager
  import opened ReadinessReport
  import opened ClientPods
  import opened SessionPods
  import opened System
  import opened Steps
  import opened SystemInvariant
  import opened PassLaws
  import opened RunLaws

  /** After a pass that stored its status, a pod that is reported ready advertises every port of every container of its
      template on the address, if there is any. All other pods advertise what they did before, and those of clients just
      placed the bare paths. */
  lemma AdvertisedPaths(cfg: Config, s: State, a: Action, s': State, client: string, pod: string, i: nat, j: nat)
    requires ValidConfig(cfg) && Inv(cfg, s) && Next(cfg, s, a, s') && Stored(cfg, s, a, s')
    requires client in s'.status && pod in s'.status[client].pods && TemplateOf(pod) in Templates(cfg)
    requires var containers := Templates(cfg)[TemplateOf(pod)].containers;
             i < |containers| && j < |containers[i].ports|
    ensures var containers, entry := Templates(cfg)[TemplateOf(pod)].containers, s'.status[client].pods[pod];
            var k := PortCount(containers[..i]) + j;
            var kept := && client in s.clients && client in s.status
                        && (s.status[client].lastSeen == DEFAULT_TIME ||
                            s.now < s.status[client].lastSeen + cfg.timeoutSeconds);
            && |entry.paths| == PortCount(containers) && k < |entry.paths|
            && (entry.ready ==> a.ip.Some?)
            && if entry.ready && a.ip.value != "" then
                 entry.paths[k] == "https://" + a.ip.value + "/" + pod + "/" + containers[i].ports[j].name
               else if kept then
                 pod in s.status[client].pods && entry.paths == s.status[client].pods[pod].paths
               else
                 entry.paths[k] == "/" + pod + "/" + containers[i].ports[j].name
  {
    hide *;
    StoredMeans(cfg, s, a, s');
    InvMeans(cfg, s);
    ClientPassMeans(cfg, s, a, s');
    var listed, alloc := ListedPods(cfg, s.pods), a.effects.alloc;
    var containers := Templates(cfg)[TemplateOf(pod)].containers;
    ViewsAre(s, a.ip, a.others);
    ReportedKeeps(listed, a.ip, alloc);
    AllocPathsFit(cfg, s.used, GivenTo(s, a.ip, a.others), ViewOf(s), alloc);
    PlacedPods(cfg, s, a, client, pod);
    AllPortsAt(containers, i, j);
    AllPortsLength(containers);
    ReportedPaths(listed, a.ip, alloc, client, pod);
    ClientPassKeepsInv(cfg, s, a, s');
    StatusIsFit(cfg, s');
    RecordedIsAllocated(s'.status, client, pod);
    NamesWellFormed(cfg, s'.status);
    FittingPath(cfg, alloc, client, pod, PortCount(containers[..i]) + j);
    if s'.status[client].pods[pod].ready && a.ip.value != "" {
      HostedPath(a.ip.value, alloc[client].pods[pod].paths[PortCount(containers[..i]) + j], pod, containers[i].ports[j].name);
    } else if client !in Carried(s.now, cfg.timeoutSeconds, s.clients, s.status) {
      FreshPaths(pod, containers, i, j);
    }
  }

  /** Whose pods are as they were, and whose are fresh. */
  lemma PlacedPods(cfg: Config, s: State, a: Action, client: string, pod: string)
    requires ValidConfig(cfg) && a.ReconcileClients? && client in a.effects.alloc && pod in a.effects.alloc[client].pods
    requires PlacesNewcomers(cfg, s.used, GivenTo(s, a.ip, a.others), ViewOf(s), a.effects.alloc)
    ensures client in Carried(s.now, cfg.timeoutSeconds, s.clients, s.status) <==>
            && client in s.clients && client in s.status
            && (s.status[client].lastSeen == DEFAULT_TIME ||
                s.now < s.status[client].lastSeen + cfg.timeoutSeconds)
    ensures if client in Carried(s.now, cfg.timeoutSeconds, s.clients, s.status) then
              client in s.status && a.effects.alloc[client].pods == s.status[client].pods
            else
              && TemplateOf(pod) in Templates(cfg) && WellNamed(cfg.session, pod)
              && a.effects.alloc[client].pods[pod] == FreshPodStatus(pod, Templates(cfg)[TemplateOf(pod)].containers)
  {
    hide FairlySourced, WithinCapacity, FewestPods, FreshPodStatus, TemplateOf, Templates, WellNamed, ListedPods;
    if client !in Carried(s.now, cfg.timeoutSeconds, s.clients, s.status) {
      assert FreshEntry(cfg, a.effects.alloc[client]);
    }
  }

  lemma ReportedPaths(listed: Pods, ip: Option<string>, status: Statuses, client: string, pod: string)
    requires StatusRewritable(status) && client in status && pod in status[client].pods
    ensures PathsRewritable(status[client].pods[pod].paths)
    ensures var before, entry := status[client].pods[pod], Reported(listed, ip, status)[client].pods[pod];
            && (entry.ready ==> ip.Some?)
            && |entry.paths| == |before.paths|
            && (if entry.ready && ip.value != "" then
                  forall k :: 0 <= k < |before.paths| ==> entry.paths[k] == WithHost(ip.value, before.paths[k])
                else entry.paths == before.paths)
  {
    var reported := Reported(listed, ip, status)[client];
    assert reported == ReportedClient(listed, ip, status[client]);
    assert reported.pods[pod] == ReportedPod(listed, ip, pod, status[client].pods[pod]);
  }

  lemma FittingPath(cfg: Config, status: Statuses, client: string, pod: string, k: nat)
    requires AllPathsFit(cfg, status) && client in status && pod in status[client].pods
    requires WellNamed(cfg.session, pod) && TemplateOf(pod) in Templates(cfg)
    requires k < |AllPorts(Templates(cfg)[TemplateOf(pod)].containers)|
    ensures var ports, paths := AllPorts(Templates(cfg)[TemplateOf(pod)].containers), status[client].pods[pod].paths;
            && |paths| == |ports|
            && Rewritable(paths[k]) && HostStripped(paths[k]) == PortPath(pod, ports[k].name)
  {
    hide WellNamed, TemplateOf, Templates, AllPorts, HostStripped, PortPath;
    assert PathsFit(cfg, pod, status[client].pods[pod]);
  }

  lemma HostedPath(ip: string, path: string, pod: string, port: string)
    requires Rewritable(path) && HostStripped(path) == PortPath(pod, port)
    ensures WithHost(ip, path) == "https://" + ip + "/" + pod + "/" + port
  {
    assert "https://" + ip + "/" + pod + "/" + port == "https://" + ip + ("/" + pod + "/" + port);
  }
}
