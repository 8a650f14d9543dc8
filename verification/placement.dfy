/** What placing new clients promises, stated on statuses alone, and why no placement needs fewer pods. */
module Placement {
  import opened Names
  import opened Model
  import opened PodIndex

  /** A newly placed client: connected, not ready yet, one fresh pod status per template. */
  ghost predicate FreshEntry(cfg: Config, entry: ClientStatus) {
    && entry.lastSeen == DEFAULT_TIME && !entry.ready
    && OnePerTemplate(cfg, entry.pods)
    && forall p :: p in entry.pods ==>
                     entry.pods[p] == FreshPodStatus(p, Templates(cfg)[TemplateOf(p)].containers)
  }

  ghost predicate AllOnePerTemplate(cfg: Config, status: Statuses) {
    forall c :: c in status ==> OnePerTemplate(cfg, status[c].pods)
  }

  /** Pods come from the carried clients, from the cluster, or are new; a new one only once no idle pod is left. */
  ghost predicate FairlySourced(carried: Statuses, listed: Pods, used: set<string>, alloc: Statuses) {
    forall p :: p in Allocated(alloc) && p !in Allocated(carried) && p !in listed ==>
                  && p !in used
                  && forall q :: q in listed && TemplateOf(q) == TemplateOf(p) ==> q in Allocated(alloc)
  }

  /** Per template, as many pods as the clients need, or as many as there were if that is more. */
  ghost predicate FewestPods(cfg: Config, carried: Statuses, alloc: Statuses)
    requires ValidConfig(cfg)
  {
    forall t :: t in Templates(cfg) ==>
                  |PodsOf(alloc, t)| == Max(|PodsOf(carried, t)|, CeilDiv(|alloc|, Templates(cfg)[t].maxClients))
  }

  /** `alloc` is `carried` and the newcomers, nobody already placed having moved. */
  ghost predicate Joined(cfg: Config, carried: Statuses, newcomers: set<string>, alloc: Statuses) {
    && alloc.Keys == carried.Keys + newcomers
    && (forall c :: c in carried ==> alloc[c] == carried[c])
    && (forall c :: c in newcomers ==> FreshEntry(cfg, alloc[c]))
  }

  /** `alloc` is `carried` with the newcomers placed. */
  ghost predicate Placed(cfg: Config, carried: Statuses, newcomers: set<string>, listed: Pods, used: set<string>,
                         alloc: Statuses)
    requires ValidConfig(cfg)
  {
    && Joined(cfg, carried, newcomers, alloc)
    && FairlySourced(carried, listed, used, alloc)
    && WithinCapacity(cfg, alloc)
    && FewestPods(cfg, carried, alloc)
  }

  // ---- counting clients by pod ----

  ghost function Pick(pods: set<string>): (p: string)
    requires pods != {}
    ensures p in pods
  {
    var p :| p in pods; p
  }

  /** Slots left on a set of pods, pod by pod. */
  ghost function FreeSlots(status: Statuses, size: int, pods: set<string>): int {
    if pods == {} then 0
    else var p := Pick(pods); size - |Users(status, p)| + FreeSlots(status, size, pods - {p})
  }

  ghost function Holders(status: Statuses, pods: set<string>): set<string> {
    set c | c in status && exists p :: p in pods && p in status[c].pods
  }

  /** No client is on two of these pods. */
  ghost predicate Separate(status: Statuses, pods: set<string>) {
    forall c, p, q :: c in status && p in pods && q in pods && p in status[c].pods && q in status[c].pods ==> p == q
  }

  lemma OneTemplateIsSeparate(cfg: Config, status: Statuses, template: string, pods: set<string>)
    requires AllOnePerTemplate(cfg, status) && forall q :: q in pods ==> TemplateOf(q) == template
    ensures Separate(status, pods)
  {
    forall c, p, q | c in status && p in pods && q in pods && p in status[c].pods && q in status[c].pods
      ensures p == q
    {
      assert OnePerTemplate(cfg, status[c].pods);
    }
  }

  lemma HoldersSplit(status: Statuses, pods: set<string>, p: string)
    requires Separate(status, pods) && p in pods
    ensures |Holders(status, pods)| == |Users(status, p)| + |Holders(status, pods - {p})|
  {
    var here, rest := Users(status, p), Holders(status, pods - {p});
    assert Holders(status, pods) == here + rest;
    assert here !! rest;
  }

  /** Free slots and clients together fill the pods. */
  lemma {:induction false} SlotsAddUp(status: Statuses, size: int, pods: set<string>)
    requires Separate(status, pods)
    ensures FreeSlots(status, size, pods) + |Holders(status, pods)| == size * |pods|
  {
    if pods == {} {
      assert Holders(status, pods) == {};
    } else {
      var p := Pick(pods);
      SlotsAddUp(status, size, pods - {p});
      HoldersSplit(status, pods, p);
      assert |pods| == |pods - {p}| + 1;
      MulStep(size, |pods - {p}|);
    }
  }

  lemma {:induction false} FreeSlotsNonNegative(status: Statuses, size: int, pods: set<string>)
    requires forall p :: p in pods ==> |Users(status, p)| <= size
    ensures FreeSlots(status, size, pods) >= 0
  {
    if pods != {} {
      FreeSlotsNonNegative(status, size, pods - {Pick(pods)});
    }
  }

  lemma EveryoneHolds(cfg: Config, status: Statuses, template: string)
    requires AllOnePerTemplate(cfg, status) && template in Templates(cfg)
    ensures Holders(status, PodsOf(status, template)) == status.Keys
  {
    forall c | c in status ensures c in Holders(status, PodsOf(status, template)) {
      assert OnePerTemplate(cfg, status[c].pods);
      var p :| p in status[c].pods && TemplateOf(p) == template;
      assert p in PodsOf(status, template);
    }
  }

  /** The free slots of one template, from the number of its pods and of all clients. */
  lemma FreeSlotsOfTemplate(cfg: Config, status: Statuses, template: string)
    requires AllOnePerTemplate(cfg, status) && template in Templates(cfg)
    ensures var size, pods := Templates(cfg)[template].maxClients, PodsOf(status, template);
            FreeSlots(status, size, pods) == size * |pods| - |status|
  {
    OneTemplateIsSeparate(cfg, status, template, PodsOf(status, template));
    SlotsAddUp(status, Templates(cfg)[template].maxClients, PodsOf(status, template));
    EveryoneHolds(cfg, status, template);
    assert |status.Keys| == |status|;
  }

  /** Any status within capacity has a pod for every `maxClients` clients. */
  lemma CapacityNeedsPods(cfg: Config, status: Statuses, template: string)
    requires ValidConfig(cfg) && AllOnePerTemplate(cfg, status) && WithinCapacity(cfg, status)
    requires template in Templates(cfg)
    ensures |PodsOf(status, template)| >= CeilDiv(|status|, Templates(cfg)[template].maxClients)
  {
    var size, pods := Templates(cfg)[template].maxClients, PodsOf(status, template);
    FreeSlotsOfTemplate(cfg, status, template);
    FreeSlotsNonNegative(status, size, pods);
    CeilDivBounds(|status|, size);
    MulOrder(size, |pods|, CeilDiv(|status|, size));
  }

  lemma KeepingAssignmentsKeepsPods(before: Statuses, after: Statuses, template: string)
    requires before.Keys <= after.Keys
    requires forall c :: c in before ==> after[c].pods.Keys == before[c].pods.Keys
    ensures PodsOf(before, template) <= PodsOf(after, template)
  {
    forall p | p in PodsOf(before, template) ensures p in PodsOf(after, template) {
      var c :| c in before && p in before[c].pods;
      assert p in after[c].pods;
    }
  }

  /** No placement that keeps current assignments and respects capacity uses fewer pods of any template. */
  lemma PackingIsOptimal(cfg: Config, carried: Statuses, newcomers: set<string>, listed: Pods, used: set<string>,
                         alloc: Statuses, other: Statuses, template: string)
    requires ValidConfig(cfg) && Placed(cfg, carried, newcomers, listed, used, alloc) && template in Templates(cfg)
    requires other.Keys == alloc.Keys && AllOnePerTemplate(cfg, other) && WithinCapacity(cfg, other)
    requires forall c :: c in carried ==> other[c].pods.Keys == carried[c].pods.Keys
    ensures |PodsOf(alloc, template)| <= |PodsOf(other, template)|
  {
    NoFewerPods(cfg, carried, alloc, other, template);
  }

  lemma NoFewerPods(cfg: Config, carried: Statuses, alloc: Statuses, other: Statuses, template: string)
    requires ValidConfig(cfg) && FewestPods(cfg, carried, alloc) && template in Templates(cfg)
    requires carried.Keys <= alloc.Keys == other.Keys && AllOnePerTemplate(cfg, other) && WithinCapacity(cfg, other)
    requires forall c :: c in carried ==> other[c].pods.Keys == carried[c].pods.Keys
    ensures |PodsOf(alloc, template)| <= |PodsOf(other, template)|
  {
    hide *;
    FewestMeans(cfg, carried, alloc, template);
    CapacityNeedsPods(cfg, other, template);
    SameKeysSameSize(other, alloc);
    KeepingAssignmentsKeepsPods(carried, other, template);
    SubsetSize(PodsOf(carried, template), PodsOf(other, template));
  }

  lemma FewestMeans(cfg: Config, carried: Statuses, alloc: Statuses, template: string)
    requires ValidConfig(cfg) && FewestPods(cfg, carried, alloc) && template in Templates(cfg)
    ensures var size := Templates(cfg)[template].maxClients;
            && size >= 1
            && |PodsOf(alloc, template)| == Max(|PodsOf(carried, template)|, CeilDiv(|alloc|, size))
            && (|PodsOf(alloc, template)| == |PodsOf(carried, template)| ||
                |PodsOf(alloc, template)| == CeilDiv(|alloc|, size))
  {
    hide PodsOf, Templates;
  }

  lemma SameKeysSameSize(a: Statuses, b: Statuses)
    requires a.Keys == b.Keys
    ensures |a| == |b|
  {
    assert |a| == |a.Keys| && |b| == |b.Keys|;
  }

  lemma JoinedSize(cfg: Config, carried: Statuses, newcomers: set<string>, alloc: Statuses)
    requires Joined(cfg, carried, newcomers, alloc) && carried.Keys !! newcomers
    ensures |alloc| == |carried| + |newcomers|
  {
    assert |alloc| == |alloc.Keys| && |carried| == |carried.Keys|;
  }

  lemma SizeOfPart<T>(whole: set<T>, part: set<T>)
    requires part <= whole
    ensures |whole - part| == |whole| - |part|
  {
    assert whole == part + (whole - part);
  }

  /** Placing `n` clients when `f` slots are free opens exactly `max(0, ceil((n - f) / maxClients))` pods. */
  lemma PodsOpened(cfg: Config, carried: Statuses, newcomers: set<string>, listed: Pods, used: set<string>,
                   alloc: Statuses, template: string)
    requires ValidConfig(cfg) && Placed(cfg, carried, newcomers, listed, used, alloc) && template in Templates(cfg)
    requires carried.Keys !! newcomers && AllOnePerTemplate(cfg, carried)
    ensures var size := Templates(cfg)[template].maxClients;
            var f := FreeSlots(carried, size, PodsOf(carried, template));
            |PodsOf(alloc, template) - PodsOf(carried, template)|
            == if |newcomers| <= f then 0 else CeilDiv(|newcomers| - f, size)
  {
    hide *;
    PlacedMeans(cfg, carried, newcomers, listed, used, alloc);
    FreeSlotsOfTemplate(cfg, carried, template);
    JoinedSize(cfg, carried, newcomers, alloc);
    PodsOpenedBy(cfg, carried, |newcomers|, alloc, template);
  }

  lemma PlacedMeans(cfg: Config, carried: Statuses, newcomers: set<string>, listed: Pods, used: set<string>,
                    alloc: Statuses)
    requires ValidConfig(cfg) && Placed(cfg, carried, newcomers, listed, used, alloc)
    ensures Joined(cfg, carried, newcomers, alloc) && FewestPods(cfg, carried, alloc)
    ensures alloc.Keys == carried.Keys + newcomers && forall c :: c in carried ==> alloc[c] == carried[c]
  {
    hide FairlySourced, WithinCapacity, FewestPods, FreshEntry;
  }

  lemma PodsOpenedBy(cfg: Config, carried: Statuses, n: nat, alloc: Statuses, template: string)
    requires ValidConfig(cfg) && FewestPods(cfg, carried, alloc) && template in Templates(cfg)
    requires carried.Keys <= alloc.Keys && forall c :: c in carried ==> alloc[c] == carried[c]
    requires |alloc| == |carried| + n
    requires var size, pods := Templates(cfg)[template].maxClients, PodsOf(carried, template);
             FreeSlots(carried, size, pods) == size * |pods| - |carried|
    ensures var size := Templates(cfg)[template].maxClients;
            var f := FreeSlots(carried, size, PodsOf(carried, template));
            |PodsOf(alloc, template) - PodsOf(carried, template)| == if n <= f then 0 else CeilDiv(n - f, size)
  {
    hide *;
    FewestMeans(cfg, carried, alloc, template);
    KeepingAssignmentsKeepsPods(carried, alloc, template);
    var size, before := Templates(cfg)[template].maxClients, PodsOf(carried, template);
    OpenedCount(size, before, PodsOf(alloc, template), n, |carried|, |alloc|, FreeSlots(carried, size, before));
  }

  lemma OpenedCount(size: int, before: set<string>, after: set<string>, n: nat, held: nat, total: nat, f: int)
    requires size >= 1 && before <= after && |after| == Max(|before|, CeilDiv(total, size))
    requires f == size * |before| - held && total == held + n
    ensures |after - before| == if n <= f then 0 else CeilDiv(n - f, size)
  {
    SizeOfPart(after, before);
    ShiftedCeil(n - f, size, |before|, total);
  }

  lemma ShiftedCeil(rest: int, size: int, k: nat, n: nat)
    requires size >= 1 && n == rest + size * k
    ensures Max(k, CeilDiv(n, size)) - k == if rest <= 0 then 0 else CeilDiv(rest, size)
  {
    CeilDivBounds(n, size);
    MulOrder(size, k, CeilDiv(n, size));
    if rest > 0 {
      var q := CeilDiv(rest, size);
      CeilDivBounds(rest, size);
      assert size * (k + q) == size * k + size * q;
      assert size * (k + q - 1) == size * k + size * q - size;
      CeilDivIs(n, size, k + q);
    }
  }

  lemma SubsetSize<T>(a: set<T>, b: set<T>)
    requires a <= b
    ensures |a| <= |b|
  {
    assert b == a + (b - a);
  }

  // ---- from lists to statuses ----

  lemma {:induction false} DistinctSize(xs: seq<string>)
    requires forall i, j :: 0 <= i < j < |xs| ==> xs[i] != xs[j]
    ensures |set x | x in xs| == |xs|
  {
    if xs == [] {
      assert (set x | x in xs) == {};
    } else {
      var rest := xs[1..];
      DistinctSize(rest);
      assert xs == [xs[0]] + rest;
      assert (set x | x in xs) == {xs[0]} + set x | x in rest;
      assert xs[0] !in rest;
    }
  }

  function ClientIds(clients: seq<PodClient>): seq<string> {
    seq(|clients|, i requires 0 <= i < |clients| => clients[i].id)
  }

  function ListNames(pods: seq<Pod>): seq<string> {
    seq(|pods|, i requires 0 <= i < |pods| => pods[i].name)
  }

  /** A pod in the index lists exactly the clients the status records on it. */
  lemma UsersListed(status: Statuses, connected: set<string>, template: string, pods: seq<Pod>, i: nat)
    requires Agrees(Edges(status), connected, template, pods) && i < |pods|
    ensures Users(status, pods[i].name) == set id | id in ClientIds(pods[i].clients)
    ensures |Users(status, pods[i].name)| == |pods[i].clients|
  {
    var pod := pods[i];
    var ids := ClientIds(pod.clients);
    assert PodAgrees(Edges(status), connected, pod);
    forall c | c in Users(status, pod.name) ensures c in ids {
      var e := (c, pod.name);
      assert e in Edges(status) && TemplateOf(e.1) == template;
      var j :| 0 <= j < |pods| && pods[j].name == pod.name && Holds(pods[j], c);
      assert i == j;
      var k :| 0 <= k < |pod.clients| && pod.clients[k].id == c;
      assert ids[k] == c;
    }
    forall c | c in ids ensures c in Users(status, pod.name) {
      var k :| 0 <= k < |ids| && ids[k] == c;
      assert (pod.clients[k].id, pod.name) in Edges(status);
    }
    DistinctSize(ids);
  }

  lemma PodsListed(status: Statuses, connected: set<string>, template: string, pods: seq<Pod>)
    requires Agrees(Edges(status), connected, template, pods)
    ensures PodsOf(status, template) == set p | p in ListNames(pods)
    ensures |PodsOf(status, template)| == |pods|
  {
    var names := ListNames(pods);
    forall p | p in PodsOf(status, template) ensures p in names {
      var c :| c in status && p in status[c].pods;
      var e := (c, p);
      assert e in Edges(status) && TemplateOf(e.1) == template;
      var j :| 0 <= j < |pods| && pods[j].name == p && Holds(pods[j], c);
      assert names[j] == p;
    }
    forall p | p in names ensures p in PodsOf(status, template) {
      var j :| 0 <= j < |names| && names[j] == p;
      assert PodAgrees(Edges(status), connected, pods[j]);
      assert (pods[j].clients[0].id, p) in Edges(status);
    }
    DistinctSize(names);
  }

  lemma {:induction false} TotalIsHolders(status: Statuses, pods: seq<Pod>)
    requires DistinctNames(pods) && Separate(status, set p | p in ListNames(pods))
    requires forall i :: 0 <= i < |pods| ==> |pods[i].clients| == |Users(status, pods[i].name)|
    ensures Total(pods) == |Holders(status, set p | p in ListNames(pods))|
  {
    var names := set p | p in ListNames(pods);
    if pods == [] {
      assert Holders(status, names) == {};
    } else {
      var first, rest := pods[0].name, pods[1..];
      TailNames(pods);
      hide DistinctNames, ListNames, Holders, Users, Separate;
      assert names - {first} == set p | p in ListNames(rest);
      FewerSeparate(status, names, names - {first});
      TotalIsHolders(status, rest);
      HoldersSplit(status, names, first);
    }
  }

  lemma TailNames(pods: seq<Pod>)
    requires pods != [] && DistinctNames(pods)
    ensures ListNames(pods) == [pods[0].name] + ListNames(pods[1..])
    ensures pods[0].name !in ListNames(pods[1..]) && DistinctNames(pods[1..])
  {
    var rest := pods[1..];
    assert forall i :: 0 <= i < |rest| ==> rest[i] == pods[i + 1];
    assert ListNames(pods) == [pods[0].name] + ListNames(rest);
    forall i | 0 <= i < |rest| ensures ListNames(rest)[i] != pods[0].name {
      assert rest[i] == pods[i + 1];
    }
  }

  lemma FewerSeparate(status: Statuses, pods: set<string>, fewer: set<string>)
    requires Separate(status, pods) && fewer <= pods
    ensures Separate(status, fewer)
  {}

  /** Every client is on one pod of every template. */
  lemma TotalIsClients(cfg: Config, status: Statuses, connected: set<string>, template: string, pods: seq<Pod>)
    requires AllOnePerTemplate(cfg, status) && template in Templates(cfg)
    requires Agrees(Edges(status), connected, template, pods)
    ensures Total(pods) == |status|
  {
    forall i | 0 <= i < |pods| ensures |pods[i].clients| == |Users(status, pods[i].name)| {
      UsersListed(status, connected, template, pods, i);
    }
    PodsListed(status, connected, template, pods);
    OneTemplateIsSeparate(cfg, status, template, PodsOf(status, template));
    TotalIsHolders(status, pods);
    EveryoneHolds(cfg, status, template);
    assert |status.Keys| == |status|;
  }
}
