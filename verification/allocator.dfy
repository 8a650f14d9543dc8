/** The pod index a pass builds and the placement of new clients on it. */
module Allocator {
  import opened Strings
  import opened Names
  import opened Model
  import opened ModelLaws
  import opened SessionStatus
  import opened PodIndex
  import opened PodOrder
  import opened Placement

  /** Idle cluster pods by template, as the pass still sees them. */
  type ReuseMap = map<string, Pods>

  function Candidates(reuse: ReuseMap, template: string): Pods {
    if template in reuse then reuse[template] else map[]
  }

  /** The listed pods of a template that no pair uses. */
  ghost function Idle(listed: Pods, names: set<string>, template: string): Pods {
    map p | p in listed && TemplateOf(p) == template && p !in names :: listed[p]
  }

  ghost predicate ReuseAgrees(listed: Pods, names: set<string>, reuse: ReuseMap) {
    forall t :: Candidates(reuse, t) == Idle(listed, names, t)
  }

  /** Groups the listed pods by the template in their name. */
  method TemplatePodMapping(pods: Pods) returns (grouped: ReuseMap)
    requires forall p :: p in pods ==> |Split(p, '-')| > 2
    ensures ReuseAgrees(pods, {}, grouped)
  {
    grouped := map[];
    var todo := pods.Keys;
    while todo != {}
      invariant todo <= pods.Keys
      invariant ReuseAgrees(pods, todo, grouped)
    {
      var p :| p in todo;
      var template := Split(p, '-')[2];
      ghost var before := grouped;
      if template !in grouped {
        grouped := grouped[template := map[p := pods[p]]];
      } else {
        grouped := grouped[template := grouped[template][p := pods[p]]];
      }
      forall t ensures Candidates(grouped, t) == Idle(pods, todo - {p}, t) {
        assert Candidates(before, t) == Idle(pods, todo, t);
      }
      todo := todo - {p};
    }
  }

  method InitAllocationMap(cfg: Config) returns (index: Index)
    ensures IndexAgrees(cfg, {}, {}, index)
    ensures forall t :: t in index ==> index[t].pods == []
    ensures forall i :: 0 <= i < |cfg.clientTemplates| ==>
                          && cfg.clientTemplates[i].name in index
                          && ((forall k :: i < k < |cfg.clientTemplates| ==>
                                             cfg.clientTemplates[k].name != cfg.clientTemplates[i].name) ==>
                                index[cfg.clientTemplates[i].name].template == cfg.clientTemplates[i])
  {
    index := map[];
    var items := cfg.clientTemplates;
    for i := 0 to |items|
      invariant index.Keys == TemplateMap(items[..i]).Keys
      invariant forall t :: t in index ==> index[t] == AllocationValue(TemplateMap(items[..i])[t], [])
    {
      assert items[..i + 1][..i] == items[..i];
      index := index[items[i].name := AllocationValue(items[i], [])];
    }
    assert items[..|items|] == items;
    forall i | 0 <= i < |items|
      ensures items[i].name in TemplateMap(items)
      ensures (forall k :: i < k < |items| ==> items[k].name != items[i].name) ==>
                TemplateMap(items)[items[i].name] == items[i]
    {
      EveryTemplateIsMapped(items, i);
    }
  }

  method BuildPodStatus(pod: string, containers: seq<Container>) returns (status: PodStatus)
    ensures status == FreshPodStatus(pod, containers)
  {
    var paths: seq<string> := [];
    for i := 0 to |containers|
      invariant paths == Paths(pod, AllPorts(containers[..i]))
    {
      ghost var before := AllPorts(containers[..i]);
      var ports := containers[i].ports;
      for j := 0 to |ports|
        invariant paths == Paths(pod, before + ports[..j])
      {
        assert before + ports[..j + 1] == before + ports[..j] + [ports[j]];
        paths := paths + [PortPath(pod, ports[j].name)];
      }
      assert ports[..|ports|] == ports;
      assert containers[..i + 1][..i] == containers[..i];
    }
    assert containers[..|containers|] == containers;
    status := PodStatus(false, paths);
  }

  method FindFirstPodAvailable(maxClients: int, pods: seq<Pod>) returns (result: int)
    ensures FirstWithRoom(maxClients, pods, result)
  {
    for i := 0 to |pods|
      invariant forall j :: 0 <= j < i ==> |pods[j].clients| >= maxClients
    {
      if |pods[i].clients| < maxClients {
        return i;
      }
    }
    return -1;
  }

  /** Any idle pod, or the empty string. */
  method ReutilizePod(pods: Pods) returns (name: string)
    requires "" !in pods
    ensures if pods == map[] then name == "" else name in pods
  {
    if pods.Keys == {} {
      assert pods == map[];
      return "";
    }
    name :| name in pods;
  }

  /** Where a pod of that name comes first, or -1. */
  function PositionOf(pods: seq<Pod>, name: string): (at: int)
    ensures -1 <= at < |pods|
    ensures if at == -1 then forall i :: 0 <= i < |pods| ==> pods[i].name != name
            else pods[at].name == name && forall i :: 0 <= i < at ==> pods[i].name != name
  {
    if pods == [] then -1
    else if pods[0].name == name then 0
    else
      assert pods == [pods[0]] + pods[1..];
      var rest := PositionOf(pods[1..], name);
      if rest == -1 then -1 else rest + 1
  }

  /** Appends a client to the first pod of that name, or a new pod holding it. */
  method RecordClient(pods: seq<Pod>, name: string, client: PodClient) returns (r: seq<Pod>)
    ensures r == Place(pods, PositionOf(pods, name), name, client)
  {
    r := pods;
    var found := false;
    ghost var at := PositionOf(pods, name);
    for i := 0 to |pods|
      invariant found <==> 0 <= at < i
      invariant r == if found then AddToPod(pods, at, client) else pods
    {
      if !found && r[i].name == name {
        found := true;
        r := AddToPod(r, i, client);
      }
    }
    if !found {
      r := AddPod(r, name, client);
    }
  }

  ghost function PairsOf(client: string, pods: set<string>): set<(string, string)> {
    set p | p in pods :: (client, p)
  }

  lemma NoPairs(edges: set<(string, string)>, client: string)
    ensures edges + PairsOf(client, {}) == edges && PodNames(edges) + {} == PodNames(edges)
  {}

  lemma PairsGrow(edges: set<(string, string)>, client: string, done: set<string>, pod: string)
    requires pod !in done && forall e :: e in edges ==> e.0 != client
    ensures edges + PairsOf(client, done + {pod}) == edges + PairsOf(client, done) + {(client, pod)}
    ensures (client, pod) !in edges + PairsOf(client, done)
    ensures PodNames(edges) + (done + {pod}) == PodNames(edges) + done + {pod}
  {}

  /** Adding the pair of a client and a pod to the list of that pod's template keeps the index in agreement. */
  lemma RecordAgrees(cfg: Config, edges: set<(string, string)>, connected: set<string>, index: Index,
                     template: string, i: int, name: string, client: PodClient, index': Index)
    requires ListsAgree(cfg, edges, connected, index)
    requires var pods := ValueOf(index, template).pods;
             && -1 <= i < |pods|
             && if i == -1 then forall j :: 0 <= j < |pods| ==> pods[j].name != name else pods[i].name == name
    requires client.connected == (client.id in connected)
    requires TemplateOf(name) == template && (client.id, name) !in edges
    requires var value := ValueOf(index, template);
             index' == index[template := value.(pods := Place(value.pods, i, name, client))]
    ensures ListsAgree(cfg, edges + {(client.id, name)}, connected, index')
  {
    hide Agrees, Templates, TemplateOf, Place;
    var pods := ValueOf(index, template).pods;
    var edges' := edges + {(client.id, name)};
    assert TemplatesOf(edges') == TemplatesOf(edges) + {template};
    if template !in index {
      NothingListed(edges, connected, template);
    }
    forall t | t in index' ensures Agrees(edges', connected, t, index'[t].pods) {
      if t != template {
        UnrelatedAgrees(edges, connected, t, index[t].pods, edges', connected);
      } else {
        PlacedAgrees(edges, connected, template, pods, i, name, client);
      }
    }
  }

  /** With no pair of a template, no list is the right one for it. */
  lemma NothingListed(edges: set<(string, string)>, connected: set<string>, template: string)
    requires template !in TemplatesOf(edges)
    ensures Agrees(edges, connected, template, [])
  {
    hide TemplateOf;
  }

  lemma PlacedAgrees(edges: set<(string, string)>, connected: set<string>, template: string, pods: seq<Pod>, i: int,
                     name: string, client: PodClient)
    requires Agrees(edges, connected, template, pods) && -1 <= i < |pods|
    requires client.connected == (client.id in connected)
    requires TemplateOf(name) == template && (client.id, name) !in edges
    requires if i == -1 then forall j :: 0 <= j < |pods| ==> pods[j].name != name else pods[i].name == name
    ensures Agrees(edges + {(client.id, name)}, connected, template, Place(pods, i, name, client))
  {
    hide Agrees, TemplateOf;
    if i == -1 {
      AddPodAgrees(edges, connected, template, pods, name, client);
    } else {
      AddToPodAgrees(edges, connected, template, pods, i, client);
    }
  }

  lemma PlaceAgrees(cfg: Config, edges: set<(string, string)>, connected: set<string>, index: Index,
                    template: string, i: int, name: string, client: PodClient, index': Index)
    requires IndexAgrees(cfg, edges, connected, index) && template in index
    requires -1 <= i < |index[template].pods| && client.connected == (client.id in connected)
    requires TemplateOf(name) == template && (client.id, name) !in edges
    requires if i == -1 then forall j :: 0 <= j < |index[template].pods| ==> index[template].pods[j].name != name
             else index[template].pods[i].name == name
    requires index' == index[template := index[template].(pods := Place(index[template].pods, i, name, client))]
    ensures IndexAgrees(cfg, edges + {(client.id, name)}, connected, index')
  {
    hide Agrees, Templates, TemplateOf, Place, ListsAgree;
    IndexAgreesIff(cfg, edges, connected, index);
    RecordAgrees(cfg, edges, connected, index, template, i, name, client, index');
    IndexAgreesIff(cfg, edges + {(client.id, name)}, connected, index');
  }

  /** A pod that a list does not name is in no pair. */
  lemma UnlistedIsUnused(edges: set<(string, string)>, connected: set<string>, template: string, pods: seq<Pod>,
                         name: string)
    requires Agrees(edges, connected, template, pods) && TemplateOf(name) == template
    ensures name in PodNames(edges) <==> exists i :: 0 <= i < |pods| && pods[i].name == name
  {
    if name in PodNames(edges) {
      var e :| e in edges && e.1 == name;
      assert Lists(pods, e.0, name);
    }
    forall i | 0 <= i < |pods| && pods[i].name == name ensures name in PodNames(edges) {
      assert PodAgrees(edges, connected, pods[i]);
      assert (pods[i].clients[0].id, name) in edges;
    }
  }

  /** Sorting one template's list keeps the index in agreement and puts the fullest pod first. */
  lemma SortOneAgrees(cfg: Config, edges: set<(string, string)>, connected: set<string>, index: Index, template: string)
    requires ValidConfig(cfg) && IndexAgrees(cfg, edges, connected, index) && template in index
    requires forall e :: e in edges ==> WellNamed(cfg.session, e.1)
    ensures AllDashed(index[template].pods) && Descending(SortPods(index[template].pods))
    ensures IndexAgrees(cfg, edges, connected,
                        index[template := index[template].(pods := SortPods(index[template].pods))])
  {
    var pods := index[template].pods;
    ListedAreWellNamed(cfg.session, edges, connected, template, pods);
    FamilyHasDistinctIds(cfg.session, template, pods);
    SortAgrees(edges, connected, template, pods);
    SortSorts(pods);
    SortedDescends(SortPods(pods));
  }

  lemma ListedAreWellNamed(session: string, edges: set<(string, string)>, connected: set<string>, template: string,
                           pods: seq<Pod>)
    requires Agrees(edges, connected, template, pods) && forall e :: e in edges ==> WellNamed(session, e.1)
    ensures forall i :: 0 <= i < |pods| ==> WellNamed(session, pods[i].name)
  {
    forall i | 0 <= i < |pods| ensures WellNamed(session, pods[i].name) {
      assert PodAgrees(edges, connected, pods[i]);
      var e := (pods[i].clients[0].id, pods[i].name);
      assert e in edges;
    }
  }

  // ---- placing newcomers ----

  function Minted(cfg: Config, mint: (string, string) -> string, client: string, template: string): string {
    ClientPodName(cfg.session, template, mint(client, template))
  }

  /** The suffixes the pass may still draw: fit for a name, unused so far in the run, and different from each other. */
  ghost predicate FreshMint(cfg: Config, mint: (string, string) -> string, pending: set<(string, string)>,
                            used: set<string>)
  {
    && (forall e :: e in pending ==>
                      && e.1 in Templates(cfg) && |mint(e.0, e.1)| == 4 && Plain(mint(e.0, e.1))
                      && Minted(cfg, mint, e.0, e.1) !in used)
    && (forall e, f :: e in pending && f in pending && e.1 == f.1 && e.0 != f.0 ==>
                         mint(e.0, e.1) != mint(f.0, f.1))
  }

  ghost predicate Unminted(cfg: Config, mint: (string, string) -> string, pending: set<(string, string)>,
                           names: set<string>)
  {
    forall e :: e in pending ==> Minted(cfg, mint, e.0, e.1) !in names
  }

  lemma MintedIsWellNamed(cfg: Config, mint: (string, string) -> string, pending: set<(string, string)>,
                          used: set<string>, e: (string, string))
    requires ValidConfig(cfg) && FreshMint(cfg, mint, pending, used) && e in pending
    ensures var name := Minted(cfg, mint, e.0, e.1);
            WellNamed(cfg.session, name) && TemplateOf(name) == e.1 && Split(name, '-')[3] == mint(e.0, e.1)
  {
    ClientPodNameParses(cfg.session, e.1, mint(e.0, e.1));
  }

  lemma MintedDiffer(cfg: Config, mint: (string, string) -> string, pending: set<(string, string)>, used: set<string>,
                     e: (string, string), f: (string, string))
    requires ValidConfig(cfg) && FreshMint(cfg, mint, pending, used) && e in pending && f in pending && e != f
    ensures Minted(cfg, mint, e.0, e.1) != Minted(cfg, mint, f.0, f.1)
  {
    MintedIsWellNamed(cfg, mint, pending, used, e);
    MintedIsWellNamed(cfg, mint, pending, used, f);
  }

  ghost predicate PackedIndex(cfg: Config, base: map<string, nat>, index: Index) {
    && index.Keys == Templates(cfg).Keys == base.Keys
    && forall t :: t in index ==>
                     Packed(Templates(cfg)[t].maxClients, base[t], index[t].pods) && Descending(index[t].pods)
  }

  ghost predicate Sourced(carried: set<string>, listed: Pods, used: set<string>, names: set<string>, reuse: ReuseMap) {
    forall p :: p in names ==>
                  p in carried || p in listed || (p !in used && Candidates(reuse, TemplateOf(p)) == map[])
  }

  /** What stays fixed while newcomers are placed: the pods in the cluster, the names spent before the pass, those of the
      carried clients, who ends up connected, and how many pods each template had. */
  datatype Setting = Setting(
    cfg: Config,
    mint: (string, string) -> string,
    listed: Pods,
    used: set<string>,
    carried: set<string>,
    online: set<string>,
    base: map<string, nat>)

  /** What placing needs of the configuration, of the suffixes still to draw and of the pods in the cluster. */
  ghost predicate Sound(g: Setting, pending: set<(string, string)>) {
    ValidConfig(g.cfg) && FreshMint(g.cfg, g.mint, pending, g.used) && ListedFit(g.cfg, g.listed, g.used)
  }

  lemma StartsSound(g: Setting, pending: set<(string, string)>)
    ensures Sound(g, pending) <==>
            ValidConfig(g.cfg) && FreshMint(g.cfg, g.mint, pending, g.used) && ListedFit(g.cfg, g.listed, g.used)
  {
    hide ValidConfig, FreshMint, ListedFit;
  }

  ghost predicate ListedFit(cfg: Config, listed: Pods, used: set<string>) {
    forall p :: p in listed ==> WellNamed(cfg.session, p) && p in used && TemplateOf(p) in Templates(cfg)
  }

  /** Everything that holds between two placements. */
  ghost predicate Progress(g: Setting, pending: set<(string, string)>, edges: set<(string, string)>,
                           names: set<string>, index: Index, reuse: ReuseMap)
  {
    && IndexAgrees(g.cfg, edges, g.online, index)
    && names == PodNames(edges)
    && ReuseAgrees(g.listed, names, reuse)
    && PackedIndex(g.cfg, g.base, index)
    && Sourced(g.carried, g.listed, g.used, names, reuse)
    && Unminted(g.cfg, g.mint, pending, names)
  }

  /** What one placement chooses: pod `i` of the list, else an idle pod, else a minted name. */
  ghost predicate Chosen(cfg: Config, mint: (string, string) -> string, client: string, template: string,
                         pods: seq<Pod>, reuse: ReuseMap, i: int, name: string, reuse': ReuseMap)
  {
    && i < |pods|
    && (i >= 0 ==> name == pods[i].name && reuse' == reuse)
    && (i == -1 ==>
          if Candidates(reuse, template) == map[] then name == Minted(cfg, mint, client, template) && reuse' == reuse
          else name in Candidates(reuse, template))
    && forall t :: Candidates(reuse', t).Keys <= Candidates(reuse, t).Keys
  }

  lemma ChosenName(g: Setting, pending: set<(string, string)>, edges: set<(string, string)>, names: set<string>,
                   index: Index, reuse: ReuseMap, client: string, template: string, i: int, name: string,
                   reuse': ReuseMap)
    requires Sound(g, pending)
    requires IndexAgrees(g.cfg, edges, g.online, index) && names == PodNames(edges)
    requires forall e :: e in edges ==> WellNamed(g.cfg.session, e.1)
    requires ReuseAgrees(g.listed, names, reuse) && Unminted(g.cfg, g.mint, pending, names)
    requires (client, template) in pending && i >= -1
    requires template in index && Chosen(g.cfg, g.mint, client, template, index[template].pods, reuse, i, name, reuse')
    ensures WellNamed(g.cfg.session, name) && TemplateOf(name) == template
    ensures i >= 0 ==> name in names
    ensures i == -1 ==>
              && name !in names
              && forall j :: 0 <= j < |index[template].pods| ==> index[template].pods[j].name != name
  {
    var pods := index[template].pods;
    assert Candidates(reuse, template) == Idle(g.listed, names, template);
    if i >= 0 {
      ListedAreWellNamed(g.cfg.session, edges, g.online, template, pods);
    } else if Candidates(reuse, template) == map[] {
      MintedIsWellNamed(g.cfg, g.mint, pending, g.used, (client, template));
    }
    UnlistedIsUnused(edges, g.online, template, pods, name);
  }

  /** One placement keeps everything that holds between placements. */
  lemma PlacementKeepsProgress(g: Setting, pending: set<(string, string)>, edges: set<(string, string)>,
                               names: set<string>, index: Index, reuse: ReuseMap, client: string, template: string,
                               i: int, name: string, index': Index, reuse': ReuseMap)
    requires Sound(g, pending)
    requires Progress(g, pending, edges, names, index, reuse)
    requires forall e :: e in edges ==> WellNamed(g.cfg.session, e.1)
    requires (client, template) in pending && template in index && client in g.online
    requires forall e :: e in edges && e.0 == client ==> TemplateOf(e.1) != template
    requires FirstWithRoom(Templates(g.cfg)[template].maxClients, index[template].pods, i) && i >= -1
    requires Chosen(g.cfg, g.mint, client, template, index[template].pods, reuse, i, name, reuse')
    requires ReuseAgrees(g.listed, names + {name}, reuse')
    requires index' == index[template := index[template].(
                               pods := Place(index[template].pods, i, name, PodClient(client, true)))]
    ensures WellNamed(g.cfg.session, name) && TemplateOf(name) == template
    ensures Progress(g, pending - {(client, template)}, edges + {(client, name)}, names + {name}, index', reuse')
  {
    hide FreshMint, ListedFit, ReuseAgrees, Sourced, Unminted, PackedIndex, WellNamed, TemplateOf, FirstWithRoom, Place;
    ChosenName(g, pending, edges, names, index, reuse, client, template, i, name, reuse');
    var pods, entry := index[template].pods, PodClient(client, true);
    assert PodNames(edges + {(client, name)}) == names + {name};
    PlaceAgrees(g.cfg, edges, g.online, index, template, i, name, entry, index');
    PackedAfter(g.cfg, g.base, index, template, i, name, entry, index');
    SourceOfChosen(g, pending, names, reuse, client, template, pods, i, name, reuse');
    UnmintedAfter(g, pending, names, reuse, client, template, pods, i, name, reuse');
  }

  lemma PackedAfter(cfg: Config, base: map<string, nat>, index: Index, template: string, i: int, name: string,
                    entry: PodClient, index': Index)
    requires ValidConfig(cfg) && PackedIndex(cfg, base, index) && template in index
    requires FirstWithRoom(Templates(cfg)[template].maxClients, index[template].pods, i)
    requires index' == index[template := index[template].(pods := Place(index[template].pods, i, name, entry))]
    ensures PackedIndex(cfg, base, index')
  {
    PlacementPacks(Templates(cfg)[template].maxClients, base[template], index[template].pods, i, name, entry);
  }

  lemma SourceOfChosen(g: Setting, pending: set<(string, string)>, names: set<string>, reuse: ReuseMap,
                       client: string, template: string, pods: seq<Pod>, i: int, name: string, reuse': ReuseMap)
    requires Sound(g, pending) && (client, template) in pending && TemplateOf(name) == template
    requires Sourced(g.carried, g.listed, g.used, names, reuse) && ReuseAgrees(g.listed, names, reuse)
    requires Chosen(g.cfg, g.mint, client, template, pods, reuse, i, name, reuse') && i >= -1
    requires i >= 0 ==> name in names
    ensures Sourced(g.carried, g.listed, g.used, names + {name}, reuse')
  {
    assert Candidates(reuse, template) == Idle(g.listed, names, template);
    forall p | p in names + {name}
      ensures p in g.carried || p in g.listed || (p !in g.used && Candidates(reuse', TemplateOf(p)) == map[])
    {
      assert Candidates(reuse', TemplateOf(p)).Keys <= Candidates(reuse, TemplateOf(p)).Keys;
      if p in names {
        assert p in g.carried || p in g.listed || (p !in g.used && Candidates(reuse, TemplateOf(p)) == map[]);
      }
    }
  }

  lemma UnmintedAfter(g: Setting, pending: set<(string, string)>, names: set<string>, reuse: ReuseMap,
                      client: string, template: string, pods: seq<Pod>, i: int, name: string, reuse': ReuseMap)
    requires Sound(g, pending)
    requires ReuseAgrees(g.listed, names, reuse) && Unminted(g.cfg, g.mint, pending, names)
    requires (client, template) in pending
    requires Chosen(g.cfg, g.mint, client, template, pods, reuse, i, name, reuse') && i >= -1
    requires i >= 0 ==> name in names
    ensures Unminted(g.cfg, g.mint, pending - {(client, template)}, names + {name})
  {
    assert Candidates(reuse, template) == Idle(g.listed, names, template);
    forall e | e in pending - {(client, template)} ensures Minted(g.cfg, g.mint, e.0, e.1) !in names + {name} {
      MintedDiffer(g.cfg, g.mint, pending, g.used, e, (client, template));
    }
  }

  /** `pods` has one well-formed entry for each template of `done`. */
  ghost predicate OnePerDone(cfg: Config, pods: map<string, PodStatus>, done: set<string>) {
    && (forall p :: p in pods ==> WellNamed(cfg.session, p) && TemplateOf(p) in done)
    && (forall p, q :: p in pods && q in pods && TemplateOf(p) == TemplateOf(q) ==> p == q)
    && (forall t :: t in done ==> exists p :: p in pods && TemplateOf(p) == t)
  }

  lemma OneMoreDone(cfg: Config, pods: map<string, PodStatus>, done: set<string>, name: string, status: PodStatus)
    requires OnePerDone(cfg, pods, done) && WellNamed(cfg.session, name) && TemplateOf(name) !in done
    ensures name !in pods && OnePerDone(cfg, pods[name := status], done + {TemplateOf(name)})
  {
    var pods' := pods[name := status];
    assert name in pods';
    forall t | t in done + {TemplateOf(name)} ensures exists p :: p in pods' && TemplateOf(p) == t {
      if t in done {
        var p :| p in pods && TemplateOf(p) == t;
        assert p in pods';
      }
    }
  }

  ghost predicate FreshPods(cfg: Config, pods: map<string, PodStatus>) {
    forall p :: p in pods ==>
                  && TemplateOf(p) in Templates(cfg)
                  && pods[p] == FreshPodStatus(p, Templates(cfg)[TemplateOf(p)].containers)
  }

  ghost function Pairings(clients: set<string>, templates: set<string>): set<(string, string)> {
    set c, t | c in clients && t in templates :: (c, t)
  }

  /** What holds while `client` is placed: its pods so far cover the templates of `done`. */
  ghost predicate PartlyPlaced(g: Setting, pending: set<(string, string)>, edges: set<(string, string)>,
                               names: set<string>, client: string, pods: map<string, PodStatus>, done: set<string>,
                               index: Index, reuse: ReuseMap)
  {
    && OnePerDone(g.cfg, pods, done) && FreshPods(g.cfg, pods)
    && Progress(g, pending - Pairings({client}, done), edges + PairsOf(client, pods.Keys), names + pods.Keys, index,
                reuse)
  }

  lemma NothingPlaced(g: Setting, pending: set<(string, string)>, edges: set<(string, string)>, names: set<string>,
                      client: string, index: Index, reuse: ReuseMap)
    requires Progress(g, pending, edges, names, index, reuse)
    ensures PartlyPlaced(g, pending, edges, names, client, map[], {}, index, reuse)
    ensures index.Keys == Templates(g.cfg).Keys
  {
    var pods: map<string, PodStatus> := map[];
    assert edges + PairsOf(client, pods.Keys) == edges && names + pods.Keys == names;
    assert pending - Pairings({client}, {}) == pending;
  }

  lemma EverythingPlaced(g: Setting, pending: set<(string, string)>, edges: set<(string, string)>,
                         names: set<string>, client: string, pods: map<string, PodStatus>, index: Index,
                         reuse: ReuseMap)
    requires PartlyPlaced(g, pending, edges, names, client, pods, Templates(g.cfg).Keys, index, reuse)
    ensures OnePerTemplate(g.cfg, pods) && FreshPods(g.cfg, pods)
    ensures Progress(g, pending - Pairings({client}, Templates(g.cfg).Keys), edges + PairsOf(client, pods.Keys),
                     names + pods.Keys, index, reuse)
  {
    hide Progress;
  }

  lemma FewerPending(g: Setting, pending: set<(string, string)>, fewer: set<(string, string)>)
    requires Sound(g, pending) && fewer <= pending
    ensures Sound(g, fewer)
  {
    hide ValidConfig, ListedFit;
  }

  lemma OneMorePair(edges: set<(string, string)>, names: set<string>, pending: set<(string, string)>, client: string,
                    pods: map<string, PodStatus>, name: string, status: PodStatus, done: set<string>, template: string)
    ensures var pods' := pods[name := status];
            && edges + PairsOf(client, pods'.Keys) == edges + PairsOf(client, pods.Keys) + {(client, name)}
            && names + pods'.Keys == names + pods.Keys + {name}
    ensures pending - Pairings({client}, done + {template})
            == pending - Pairings({client}, done) - {(client, template)}
  {
    var pods' := pods[name := status];
    assert pods'.Keys == pods.Keys + {name};
    assert PairsOf(client, pods'.Keys) == PairsOf(client, pods.Keys) + {(client, name)};
    assert Pairings({client}, done + {template}) == Pairings({client}, done) + {(client, template)};
  }

  lemma StillPending(pending: set<(string, string)>, client: string, all: set<string>, done: set<string>,
                     template: string)
    requires Pairings({client}, all) <= pending && template in all - done
    ensures (client, template) in pending - Pairings({client}, done)
  {
    assert (client, template) in Pairings({client}, all);
  }

  lemma OneMoreFresh(cfg: Config, pods: map<string, PodStatus>, name: string, status: PodStatus)
    requires FreshPods(cfg, pods) && TemplateOf(name) in Templates(cfg)
    requires status == FreshPodStatus(name, Templates(cfg)[TemplateOf(name)].containers)
    ensures FreshPods(cfg, pods[name := status])
  {}

  lemma PairsSoFar(cfg: Config, edges: set<(string, string)>, client: string, pods: map<string, PodStatus>,
                   done: set<string>)
    requires OnePerDone(cfg, pods, done)
    requires forall e :: e in edges ==> WellNamed(cfg.session, e.1) && e.0 != client
    ensures forall e :: e in edges + PairsOf(client, pods.Keys) ==>
                          WellNamed(cfg.session, e.1) && (e.0 == client ==> TemplateOf(e.1) in done)
  {}

  /** What choosing a pod needs to know about the lists. */
  lemma ReadyToPlace(g: Setting, pending: set<(string, string)>, edges: set<(string, string)>, names: set<string>,
                     index: Index, client: string, template: string)
    requires IndexAgrees(g.cfg, edges, g.online, index) && names == PodNames(edges) && template in index
    requires Sound(g, pending) && (client, template) in pending
    ensures forall j :: 0 <= j < |index[template].pods| ==> index[template].pods[j].name in names
    ensures Minted(g.cfg, g.mint, client, template) !in g.listed && "" !in g.listed
  {
    var e := (client, template);
    assert Minted(g.cfg, g.mint, e.0, e.1) !in g.used;
    assert !WellNamed(g.cfg.session, "");
    forall j | 0 <= j < |index[template].pods| ensures index[template].pods[j].name in names {
      UnlistedIsUnused(edges, g.online, template, index[template].pods, index[template].pods[j].name);
    }
  }

  // ---- all newcomers ----

  ghost function Elements(xs: seq<string>): set<string> {
    set x | x in xs
  }

  lemma AllocatedIsPodNames(status: Statuses)
    ensures PodNames(Edges(status)) == Allocated(status)
  {
    forall p | p in Allocated(status) ensures p in PodNames(Edges(status)) {
      var c :| c in status && p in status[c].pods;
      assert (c, p) in Edges(status);
    }
  }

  lemma OneMoreClient(status: Statuses, client: string, entry: ClientStatus)
    requires client !in status
    ensures Edges(status[client := entry]) == Edges(status) + PairsOf(client, entry.pods.Keys)
    ensures Allocated(status[client := entry]) == Allocated(status) + entry.pods.Keys
  {
    var status' := status[client := entry];
    forall p | p in Allocated(status) + entry.pods.Keys ensures p in Allocated(status') {
      if p in entry.pods {
        assert p in status'[client].pods;
      } else {
        var c :| c in status && p in status[c].pods;
        assert p in status'[c].pods;
      }
    }
  }

  /** Before any placement, a fullest-first index of the carried clients is packed. */
  lemma PackedAtStart(cfg: Config, status: Statuses, online: set<string>, index: Index, base: map<string, nat>)
    requires ValidConfig(cfg) && IndexAgrees(cfg, Edges(status), online, index) && WithinCapacity(cfg, status)
    requires forall t :: t in index ==> Descending(index[t].pods)
    requires base.Keys == index.Keys && forall t :: t in index ==> base[t] == |index[t].pods|
    ensures PackedIndex(cfg, base, index)
  {
    forall t | t in index ensures Packed(Templates(cfg)[t].maxClients, base[t], index[t].pods) {
      var pods := index[t].pods;
      forall i | 0 <= i < |pods| ensures |pods[i].clients| <= Templates(cfg)[t].maxClients {
        UsersListed(status, online, t, pods, i);
        PodsListed(status, online, t, pods);
        assert ListNames(pods)[i] == pods[i].name;
        assert pods[i].name in PodsOf(status, t);
      }
    }
  }

  lemma IndexIsWithinCapacity(cfg: Config, status: Statuses, online: set<string>, index: Index,
                              base: map<string, nat>)
    requires ValidConfig(cfg) && IndexAgrees(cfg, Edges(status), online, index) && PackedIndex(cfg, base, index)
    ensures WithinCapacity(cfg, status)
  {
    forall p | p in Allocated(status) && TemplateOf(p) in Templates(cfg)
      ensures |Users(status, p)| <= Templates(cfg)[TemplateOf(p)].maxClients
    {
      var t := TemplateOf(p);
      var pods := index[t].pods;
      PodsListed(status, online, t, pods);
      assert p in PodsOf(status, t);
      var i :| 0 <= i < |ListNames(pods)| && ListNames(pods)[i] == p;
      UsersListed(status, online, t, pods, i);
    }
  }

  lemma IndexHasFewestPods(cfg: Config, carried: Statuses, alloc: Statuses, online: set<string>, index: Index,
                           base: map<string, nat>)
    requires ValidConfig(cfg) && IndexAgrees(cfg, Edges(alloc), online, index) && PackedIndex(cfg, base, index)
    requires AllOnePerTemplate(cfg, alloc)
    requires forall t :: t in base ==> base[t] == |PodsOf(carried, t)|
    ensures FewestPods(cfg, carried, alloc)
  {
    forall t | t in Templates(cfg)
      ensures |PodsOf(alloc, t)| == Max(|PodsOf(carried, t)|, CeilDiv(|alloc|, Templates(cfg)[t].maxClients))
    {
      assert |PodsOf(alloc, t)| == |index[t].pods| by { PodsListed(alloc, online, t, index[t].pods); }
      assert Total(index[t].pods) == |alloc| by { TotalIsClients(cfg, alloc, online, t, index[t].pods); }
      PackedSize(Templates(cfg)[t].maxClients, base[t], index[t].pods);
    }
  }

  lemma SourcesAreFair(carried: Statuses, listed: Pods, used: set<string>, alloc: Statuses, reuse: ReuseMap)
    requires Sourced(Allocated(carried), listed, used, Allocated(alloc), reuse)
    requires ReuseAgrees(listed, Allocated(alloc), reuse)
    ensures FairlySourced(carried, listed, used, alloc)
  {
    forall p | p in Allocated(alloc) && p !in Allocated(carried) && p !in listed
      ensures p !in used
      ensures forall q :: q in listed && TemplateOf(q) == TemplateOf(p) ==> q in Allocated(alloc)
    {
      var t := TemplateOf(p);
      assert Candidates(reuse, t) == Idle(listed, Allocated(alloc), t);
      forall q | q in listed && TemplateOf(q) == t ensures q in Allocated(alloc) {
        assert q !in Idle(listed, Allocated(alloc), t);
      }
    }
  }

  lemma JoinedIsOnePerTemplate(cfg: Config, carried: Statuses, newcomers: set<string>, alloc: Statuses)
    requires AllOnePerTemplate(cfg, carried) && Joined(cfg, carried, newcomers, alloc)
    ensures AllOnePerTemplate(cfg, alloc)
  {
    hide OnePerTemplate;
    forall c | c in alloc ensures OnePerTemplate(cfg, alloc[c].pods) {
      if c in newcomers { assert FreshEntry(cfg, alloc[c]); }
    }
  }

  /** What holds once the first `k` newcomers are placed. */
  ghost predicate FirstPlaced(g: Setting, newClients: seq<string>, k: nat, carried: Statuses, alloc: Statuses,
                              index: Index, reuse: ReuseMap)
    requires k <= |newClients|
  {
    && g.carried == Allocated(carried) && g.online == ConnectedClients(carried) + Elements(newClients)
    && Joined(g.cfg, carried, Elements(newClients[..k]), alloc)
    && Progress(g, Pairings(Elements(newClients[k..]), Templates(g.cfg).Keys), Edges(alloc), Allocated(alloc), index,
                reuse)
  }

  lemma StartPlacing(g: Setting, newClients: seq<string>, carried: Statuses, index: Index, reuse: ReuseMap)
    requires Sound(g, Pairings(Elements(newClients), Templates(g.cfg).Keys))
    requires WithinCapacity(g.cfg, carried) && Allocated(carried) <= g.used
    requires g.carried == Allocated(carried) && g.online == ConnectedClients(carried) + Elements(newClients)
    requires IndexAgrees(g.cfg, Edges(carried), ConnectedClients(carried), index)
    requires ReuseAgrees(g.listed, Allocated(carried), reuse)
    requires forall t :: t in index ==> Descending(index[t].pods)
    requires g.base.Keys == index.Keys && forall t :: t in index ==> g.base[t] == |index[t].pods|
    requires forall c :: c in newClients ==> c !in carried
    ensures FirstPlaced(g, newClients, 0, carried, carried, index, reuse)
  {
    AllocatedIsPodNames(carried);
    assert newClients[..0] == [] && newClients[0..] == newClients;
    forall t | t in index ensures Agrees(Edges(carried), g.online, t, index[t].pods) {
      UnrelatedAgrees(Edges(carried), ConnectedClients(carried), t, index[t].pods, Edges(carried), g.online);
    }
    assert IndexAgrees(g.cfg, Edges(carried), g.online, index);
    PackedAtStart(g.cfg, carried, g.online, index, g.base);
  }

  lemma OneMorePlaced(cfg: Config, newClients: seq<string>, k: nat, carried: Statuses, alloc: Statuses,
                      entry: ClientStatus)
    requires k < |newClients| && forall i, j :: 0 <= i < j < |newClients| ==> newClients[i] != newClients[j]
    requires forall c :: c in newClients ==> c !in carried
    requires Joined(cfg, carried, Elements(newClients[..k]), alloc) && FreshEntry(cfg, entry)
    ensures newClients[k] !in alloc
    ensures Joined(cfg, carried, Elements(newClients[..k + 1]), alloc[newClients[k] := entry])
    ensures Pairings(Elements(newClients[k..]), Templates(cfg).Keys) - Pairings({newClients[k]}, Templates(cfg).Keys)
            == Pairings(Elements(newClients[k + 1..]), Templates(cfg).Keys)
    ensures Pairings({newClients[k]}, Templates(cfg).Keys) <= Pairings(Elements(newClients[k..]), Templates(cfg).Keys)
  {
    hide FreshEntry;
    assert newClients[..k + 1] == newClients[..k] + [newClients[k]];
    assert newClients[k..] == [newClients[k]] + newClients[k + 1..];
    assert newClients[k] !in newClients[..k] && newClients[k] !in newClients[k + 1..];
  }

  lemma PlacedIs(cfg: Config, carried: Statuses, newcomers: set<string>, listed: Pods, used: set<string>,
                 alloc: Statuses)
    requires ValidConfig(cfg) && Joined(cfg, carried, newcomers, alloc) && FairlySourced(carried, listed, used, alloc)
    requires WithinCapacity(cfg, alloc) && FewestPods(cfg, carried, alloc)
    ensures Placed(cfg, carried, newcomers, listed, used, alloc)
  {
    hide Joined, FairlySourced, WithinCapacity, FewestPods;
  }

  lemma PlacedAll(g: Setting, newClients: seq<string>, carried: Statuses, alloc: Statuses, index: Index,
                  reuse: ReuseMap)
    requires FirstPlaced(g, newClients, |newClients|, carried, alloc, index, reuse)
    ensures Joined(g.cfg, carried, Elements(newClients), alloc) && ConnectedClients(alloc) == g.online
    ensures IndexAgrees(g.cfg, Edges(alloc), g.online, index) && PackedIndex(g.cfg, g.base, index)
    ensures ReuseAgrees(g.listed, Allocated(alloc), reuse)
    ensures Sourced(Allocated(carried), g.listed, g.used, Allocated(alloc), reuse)
  {
    hide IndexAgrees, ReuseAgrees, PackedIndex, Sourced, Unminted, OnePerTemplate, FreshPodStatus;
    assert newClients[..|newClients|] == newClients;
  }

  lemma FinishPlacing(g: Setting, newClients: seq<string>, carried: Statuses, alloc: Statuses, index: Index,
                      reuse: ReuseMap)
    requires ValidConfig(g.cfg) && AllOnePerTemplate(g.cfg, carried)
    requires FirstPlaced(g, newClients, |newClients|, carried, alloc, index, reuse)
    requires forall t :: t in g.base ==> g.base[t] == |PodsOf(carried, t)|
    ensures Placed(g.cfg, carried, Elements(newClients), g.listed, g.used, alloc)
    ensures IndexAgrees(g.cfg, Edges(alloc), ConnectedClients(alloc), index)
    ensures ReuseAgrees(g.listed, Allocated(alloc), reuse)
  {
    hide *;
    PlacedAll(g, newClients, carried, alloc, index, reuse);
    JoinedIsOnePerTemplate(g.cfg, carried, Elements(newClients), alloc);
    IndexIsWithinCapacity(g.cfg, alloc, g.online, index, g.base);
    IndexHasFewestPods(g.cfg, carried, alloc, g.online, index, g.base);
    SourcesAreFair(carried, g.listed, g.used, alloc, reuse);
    PlacedIs(g.cfg, carried, Elements(newClients), g.listed, g.used, alloc);
  }

  lemma ReadyForNext(g: Setting, newClients: seq<string>, k: nat, carried: Statuses, alloc: Statuses, index: Index,
                     reuse: ReuseMap)
    requires k < |newClients| && forall i, j :: 0 <= i < j < |newClients| ==> newClients[i] != newClients[j]
    requires AllOnePerTemplate(g.cfg, carried) && forall c :: c in newClients ==> c !in carried
    requires Sound(g, Pairings(Elements(newClients), Templates(g.cfg).Keys))
    requires FirstPlaced(g, newClients, k, carried, alloc, index, reuse)
    ensures var pending := Pairings(Elements(newClients[k..]), Templates(g.cfg).Keys);
            && Sound(g, pending)
            && Progress(g, pending, Edges(alloc), Allocated(alloc), index, reuse)
            && Pairings({newClients[k]}, Templates(g.cfg).Keys) <= pending
    ensures newClients[k] in g.online
    ensures g.carried == Allocated(carried) && g.online == ConnectedClients(carried) + Elements(newClients)
    ensures Joined(g.cfg, carried, Elements(newClients[..k]), alloc)
    ensures forall e :: e in Edges(alloc) ==> WellNamed(g.cfg.session, e.1) && e.0 != newClients[k]
  {
    hide Progress, Sound, WellNamed, FreshPodStatus;
    var templates := Templates(g.cfg).Keys;
    assert newClients[k..] == [newClients[k]] + newClients[k + 1..];
    assert Elements(newClients[k..]) <= Elements(newClients);
    FewerPending(g, Pairings(Elements(newClients), templates), Pairings(Elements(newClients[k..]), templates));
    JoinedIsOnePerTemplate(g.cfg, carried, Elements(newClients[..k]), alloc);
    assert newClients[k] !in newClients[..k];
    forall e | e in Edges(alloc) ensures WellNamed(g.cfg.session, e.1) {
      assert OnePerTemplate(g.cfg, alloc[e.0].pods);
    }
  }

  lemma NextPlaced(g: Setting, newClients: seq<string>, k: nat, carried: Statuses, alloc: Statuses,
                   entry: ClientStatus, index: Index, reuse: ReuseMap)
    requires k < |newClients| && forall i, j :: 0 <= i < j < |newClients| ==> newClients[i] != newClients[j]
    requires forall c :: c in newClients ==> c !in carried
    requires g.carried == Allocated(carried) && g.online == ConnectedClients(carried) + Elements(newClients)
    requires Joined(g.cfg, carried, Elements(newClients[..k]), alloc)
    requires entry.lastSeen == DEFAULT_TIME && !entry.ready
    requires OnePerTemplate(g.cfg, entry.pods) && FreshPods(g.cfg, entry.pods)
    requires var templates := Templates(g.cfg).Keys;
             Progress(g, Pairings(Elements(newClients[k..]), templates) - Pairings({newClients[k]}, templates),
                      Edges(alloc) + PairsOf(newClients[k], entry.pods.Keys), Allocated(alloc) + entry.pods.Keys,
                      index, reuse)
    ensures FirstPlaced(g, newClients, k + 1, carried, alloc[newClients[k] := entry], index, reuse)
  {
    hide Progress, OnePerTemplate, Joined, FreshPodStatus, Pairings, Edges, Allocated, PairsOf, Elements;
    OneMorePlaced(g.cfg, newClients, k, carried, alloc, entry);
    OneMoreClient(alloc, newClients[k], entry);
  }

  lemma BaseCountsPods(cfg: Config, status: Statuses, index: Index, base: map<string, nat>)
    requires IndexAgrees(cfg, Edges(status), ConnectedClients(status), index)
    requires base == map t | t in index :: |index[t].pods|
    ensures forall t :: t in base ==> base[t] == |PodsOf(status, t)|
  {
    forall t | t in base ensures base[t] == |PodsOf(status, t)| {
      PodsListed(status, ConnectedClients(status), t, index[t].pods);
    }
  }

  /** With nobody to place, the carried status already is a placement. */
  lemma NobodyToPlace(cfg: Config, carried: Statuses, listed: Pods, used: set<string>)
    requires ValidConfig(cfg) && AllOnePerTemplate(cfg, carried) && WithinCapacity(cfg, carried)
    ensures Placed(cfg, carried, {}, listed, used, carried)
  {
    forall t | t in Templates(cfg)
      ensures |PodsOf(carried, t)| >= CeilDiv(|carried|, Templates(cfg)[t].maxClients)
    {
      CapacityNeedsPods(cfg, carried, t);
    }
  }

  class Allocation {
    var index: Index
    var reuse: ReuseMap

    constructor (index: Index, reuse: ReuseMap)
      ensures this.index == index && this.reuse == reuse
    {
      this.index, this.reuse := index, reuse;
    }

    /** Records one client on every pod its status names and takes those pods out of the idle ones. A pod whose template is
        not in the session gets a list of its own. */
    method BuildAllocationMap(cfg: Config, client: string, entry: ClientStatus, connected: bool,
                              ghost edges: set<(string, string)>, ghost online: set<string>, ghost listed: Pods)
      requires ListsAgree(cfg, edges, online, index) && ReuseAgrees(listed, PodNames(edges), reuse)
      requires connected == (client in online) && forall e :: e in edges ==> e.0 != client
      requires forall p :: p in entry.pods ==> |Split(p, '-')| > 2
      modifies this
      ensures ListsAgree(cfg, edges + PairsOf(client, entry.pods.Keys), online, index)
      ensures ReuseAgrees(listed, PodNames(edges) + entry.pods.Keys, reuse)
    {
      hide *;
      var todo := entry.pods.Keys;
      ghost var done: set<string> := {};
      NoPairs(edges, client);
      while todo != {}
        invariant todo <= entry.pods.Keys && done == entry.pods.Keys - todo
        invariant ListsAgree(cfg, edges + PairsOf(client, done), online, index)
        invariant ReuseAgrees(listed, PodNames(edges) + done, reuse)
      {
        var p :| p in todo;
        PairsGrow(edges, client, done, p);
        RecordPod(cfg, PodClient(client, connected), p, edges + PairsOf(client, done), online, listed,
                  PodNames(edges) + done);
        todo, done := todo - {p}, done + {p};
      }
      assert done == entry.pods.Keys;
    }

    method RecordPod(cfg: Config, client: PodClient, name: string, ghost edges: set<(string, string)>,
                     ghost online: set<string>, ghost listed: Pods, ghost names: set<string>)
      requires ListsAgree(cfg, edges, online, index) && ReuseAgrees(listed, names, reuse)
      requires client.connected == (client.id in online) && (client.id, name) !in edges
      requires |Split(name, '-')| > 2
      modifies this
      ensures ListsAgree(cfg, edges + {(client.id, name)}, online, index)
      ensures ReuseAgrees(listed, names + {name}, reuse)
    {
      var template := Split(name, '-')[2];
      RemoveCandidate(template, name, listed, names);
      hide ListsAgree, ReuseAgrees, Agrees;
      var value := ValueOf(index, template);
      ghost var at := PositionOf(value.pods, name);
      var pods := RecordClient(value.pods, name, client);
      ghost var before := index;
      index := index[template := value.(pods := pods)];
      RecordAgrees(cfg, edges, online, before, template, at, name, client, index);
    }

    method RemoveCandidate(template: string, name: string, ghost listed: Pods, ghost names: set<string>)
      requires ReuseAgrees(listed, names, reuse) && TemplateOf(name) == template
      modifies this`reuse
      ensures ReuseAgrees(listed, names + {name}, reuse)
      ensures forall t :: Candidates(reuse, t) == Candidates(old(reuse), t) - {name}
    {
      if template in reuse {
        reuse := reuse[template := reuse[template] - {name}];
      }
      forall t
        ensures Candidates(reuse, t) == Idle(listed, names + {name}, t)
        ensures Candidates(reuse, t) == Candidates(old(reuse), t) - {name}
      {
        assert Candidates(old(reuse), t) == Idle(listed, names, t);
      }
    }

    /** Sorts every template's pods, fullest first. */
    method SortAllocationMap(cfg: Config, ghost edges: set<(string, string)>, ghost online: set<string>)
      requires ValidConfig(cfg) && IndexAgrees(cfg, edges, online, index)
      requires forall e :: e in edges ==> WellNamed(cfg.session, e.1)
      modifies this`index
      ensures IndexAgrees(cfg, edges, online, index)
      ensures forall t :: t in index ==> Descending(index[t].pods)
      ensures forall t :: t in index ==> |index[t].pods| == |old(index)[t].pods|
    {
      hide Agrees;
      ghost var start := index;
      var todo := index.Keys;
      while todo != {}
        invariant todo <= index.Keys == start.Keys && IndexAgrees(cfg, edges, online, index)
        invariant forall t :: t in index && t !in todo ==> Descending(index[t].pods)
        invariant forall t :: t in index ==> |index[t].pods| == |start[t].pods|
      {
        var t :| t in todo;
        SortOneAgrees(cfg, edges, online, index, t);
        index := index[t := index[t].(pods := SortPods(index[t].pods))];
        todo := todo - {t};
      }
    }

    /** Places one client on one template: on the first pod with room, else on an idle pod, else on a new one. */
    method PlaceClient(cfg: Config, template: string, client: string, mint: (string, string) -> string,
                       ghost listed: Pods, ghost names: set<string>)
      returns (name: string, ghost i: int)
      requires template in index && ReuseAgrees(listed, names, reuse) && "" !in listed
      requires forall j :: 0 <= j < |index[template].pods| ==> index[template].pods[j].name in names
      requires Minted(cfg, mint, client, template) !in listed
      modifies this
      ensures FirstWithRoom(old(index)[template].template.maxClients, old(index)[template].pods, i)
      ensures Chosen(cfg, mint, client, template, old(index)[template].pods, old(reuse), i, name, reuse)
      ensures ReuseAgrees(listed, names + {name}, reuse)
      ensures template in old(index)
           && index == old(index)[template := old(index)[template].(
                                    pods := Place(old(index)[template].pods, i, name, PodClient(client, true)))]
    {
      var value := index[template];
      var podIndex := FindFirstPodAvailable(value.template.maxClients, value.pods);
      i := podIndex;
      if podIndex == -1 {
        assert Candidates(reuse, template) == Idle(listed, names, template);
        name := ReutilizePod(Candidates(reuse, template));
        if name == "" {
          name := ClientPodName(cfg.session, template, mint(client, template));
        } else {
          RemoveCandidate(template, name, listed, names);
        }
        value := value.(pods := AddPod(value.pods, name, PodClient(client, true)));
      } else {
        name := value.pods[podIndex].name;
        value := value.(pods := AddToPod(value.pods, podIndex, PodClient(client, true)));
      }
      index := index[template := value];
      forall t ensures Candidates(reuse, t) == Idle(listed, names + {name}, t) {
        assert Candidates(old(reuse), t) == Idle(listed, names, t);
      }
    }

    /** Places one client on one template and builds its pod status there. */
    method AllocateOn(cfg: Config, client: string, template: string, mint: (string, string) -> string,
                      ghost g: Setting, ghost pending: set<(string, string)>, ghost edges: set<(string, string)>,
                      ghost names: set<string>)
      returns (name: string, status: PodStatus)
      requires g.cfg == cfg && g.mint == mint && Sound(g, pending)
      requires Progress(g, pending, edges, names, index, reuse)
      requires (client, template) in pending && template in index && client in g.online
      requires forall e :: e in edges ==> WellNamed(cfg.session, e.1)
      requires forall e :: e in edges && e.0 == client ==> TemplateOf(e.1) != template
      modifies this
      ensures WellNamed(cfg.session, name) && TemplateOf(name) == template && template in Templates(cfg)
      ensures status == FreshPodStatus(name, Templates(cfg)[template].containers)
      ensures Progress(g, pending - {(client, template)}, edges + {(client, name)}, names + {name}, index, reuse)
    {
      ReadyToPlace(g, pending, edges, names, index, client, template);
      hide Sound, WellNamed, TemplateOf, FirstWithRoom, Place, PackedIndex, ReuseAgrees, Sourced,
           Unminted, Agrees, Chosen;
      ghost var index0, reuse0 := index, reuse;
      ghost var i;
      name, i := PlaceClient(cfg, template, client, mint, g.listed, names);
      PlacementKeepsProgress(g, pending, edges, names, index0, reuse0, client, template, i, name, index, reuse);
      status := BuildPodStatus(name, index[template].template.containers);
    }

    /** Extends a partly placed client by one template. */
    method AllocateNext(cfg: Config, client: string, template: string, mint: (string, string) -> string,
                        pods: map<string, PodStatus>, ghost g: Setting, ghost done: set<string>,
                        ghost pending: set<(string, string)>, ghost edges: set<(string, string)>,
                        ghost names: set<string>)
      returns (pods': map<string, PodStatus>)
      requires g.cfg == cfg && g.mint == mint && Sound(g, pending)
      requires Pairings({client}, Templates(cfg).Keys) <= pending && client in g.online
      requires forall e :: e in edges ==> WellNamed(cfg.session, e.1) && e.0 != client
      requires template in Templates(cfg).Keys - done
      requires PartlyPlaced(g, pending, edges, names, client, pods, done, index, reuse)
      modifies this
      ensures PartlyPlaced(g, pending, edges, names, client, pods', done + {template}, index, reuse)
    {
      ghost var left, pairs := pending - Pairings({client}, done), edges + PairsOf(client, pods.Keys);
      StillPending(pending, client, Templates(cfg).Keys, done, template);
      FewerPending(g, pending, left);
      PairsSoFar(cfg, edges, client, pods, done);
      hide IndexAgrees, PackedIndex, ReuseAgrees, Sourced, Unminted, Sound, WellNamed, TemplateOf, PairsOf,
           Pairings, OnePerDone, FreshPods, FreshPodStatus;
      var name, status := AllocateOn(cfg, client, template, mint, g, left, pairs, names + pods.Keys);
      hide Progress;
      OneMoreDone(cfg, pods, done, name, status);
      OneMoreFresh(cfg, pods, name, status);
      OneMorePair(edges, names, pending, client, pods, name, status, done, template);
      pods' := pods[name := status];
    }

    /** Places one client on every template. */
    method AllocateClient(cfg: Config, client: string, mint: (string, string) -> string, ghost g: Setting,
                          ghost pending: set<(string, string)>, ghost edges: set<(string, string)>,
                          ghost names: set<string>)
      returns (pods: map<string, PodStatus>)
      requires g.cfg == cfg && g.mint == mint && Sound(g, pending)
      requires Progress(g, pending, edges, names, index, reuse)
      requires Pairings({client}, Templates(cfg).Keys) <= pending && client in g.online
      requires forall e :: e in edges ==> WellNamed(cfg.session, e.1) && e.0 != client
      modifies this
      ensures OnePerTemplate(cfg, pods) && FreshPods(cfg, pods)
      ensures Progress(g, pending - Pairings({client}, Templates(cfg).Keys), edges + PairsOf(client, pods.Keys),
                       names + pods.Keys, index, reuse)
    {
      hide *;
      pods := map[];
      var todo := index.Keys;
      ghost var done: set<string> := {};
      NothingPlaced(g, pending, edges, names, client, index, reuse);
      while todo != {}
        invariant todo <= Templates(cfg).Keys && done == Templates(cfg).Keys - todo
        invariant PartlyPlaced(g, pending, edges, names, client, pods, done, index, reuse)
      {
        var t :| t in todo;
        pods := AllocateNext(cfg, client, t, mint, pods, g, done, pending, edges, names);
        todo, done := todo - {t}, done + {t};
      }
      assert done == Templates(cfg).Keys;
      EverythingPlaced(g, pending, edges, names, client, pods, index, reuse);
    }

    /** Places every newcomer in turn and records it in the status. */
    method AllocateClients(session: Session, newClients: seq<string>, mint: (string, string) -> string,
                           ghost listed: Pods, ghost used: set<string>)
      requires ValidConfig(session.cfg) && ListedFit(session.cfg, listed, used)
      requires AllOnePerTemplate(session.cfg, session.status) && WithinCapacity(session.cfg, session.status)
      requires Allocated(session.status) <= used
      requires IndexAgrees(session.cfg, Edges(session.status), ConnectedClients(session.status), index)
      requires ReuseAgrees(listed, Allocated(session.status), reuse)
      requires forall t :: t in index ==> Descending(index[t].pods)
      requires forall i, j :: 0 <= i < j < |newClients| ==> newClients[i] != newClients[j]
      requires forall c :: c in newClients ==> c !in session.status
      requires FreshMint(session.cfg, mint, Pairings(Elements(newClients), Templates(session.cfg).Keys), used)
      modifies this, session
      ensures Placed(session.cfg, old(session.status), Elements(newClients), listed, used, session.status)
      ensures IndexAgrees(session.cfg, Edges(session.status), ConnectedClients(session.status), index)
      ensures ReuseAgrees(listed, Allocated(session.status), reuse)
    {
      hide *;
      var cfg := session.cfg;
      ghost var carried := session.status;
      ghost var g := Setting(cfg, mint, listed, used, Allocated(carried), ConnectedClients(carried) + Elements(newClients),
                             map t | t in index :: |index[t].pods|);
      BaseCountsPods(cfg, carried, index, g.base);
      StartsSound(g, Pairings(Elements(newClients), Templates(cfg).Keys));
      StartPlacing(g, newClients, carried, index, reuse);
      for k := 0 to |newClients|
        invariant FirstPlaced(g, newClients, k, carried, session.status, index, reuse)
      {
        AllocateAt(session, newClients, k, mint, g, carried);
      }
      FinishPlacing(g, newClients, carried, session.status, index, reuse);
    }

    method AllocateAt(session: Session, newClients: seq<string>, k: nat, mint: (string, string) -> string,
                      ghost g: Setting, ghost carried: Statuses)
      requires g.cfg == session.cfg && g.mint == mint
      requires Sound(g, Pairings(Elements(newClients), Templates(session.cfg).Keys))
      requires k < |newClients| && forall i, j :: 0 <= i < j < |newClients| ==> newClients[i] != newClients[j]
      requires AllOnePerTemplate(session.cfg, carried) && forall c :: c in newClients ==> c !in carried
      requires FirstPlaced(g, newClients, k, carried, session.status, index, reuse)
      modifies this, session
      ensures FirstPlaced(g, newClients, k + 1, carried, session.status, index, reuse)
    {
      hide *;
      var cfg, client := session.cfg, newClients[k];
      ghost var pending := Pairings(Elements(newClients[k..]), Templates(cfg).Keys);
      ReadyForNext(g, newClients, k, carried, session.status, index, reuse);
      var pods := AllocateClient(cfg, client, mint, g, pending, Edges(session.status), Allocated(session.status));
      var entry := ClientStatus(DEFAULT_TIME, false, pods);
      NextPlaced(g, newClients, k, carried, session.status, entry, index, reuse);
      session.status := session.status[client := entry];
    }
  }
}
