/** The pod index of one template: which clients each pod holds, as rebuilt from a status and extended by placements. */
module PodIndex {
  import opened Names
  import opened Model

  datatype PodClient = PodClient(id: string, connected: bool)
  datatype Pod = Pod(name: string, clients: seq<PodClient>)
  datatype AllocationValue = AllocationValue(template: ClientTemplate, pods: seq<Pod>)

  type Index = map<string, AllocationValue>

  // ---- agreement with a set of (client, pod) pairs ----

  ghost predicate Holds(pod: Pod, client: string) {
    exists k :: 0 <= k < |pod.clients| && pod.clients[k].id == client
  }

  ghost predicate Lists(pods: seq<Pod>, client: string, name: string) {
    exists i :: 0 <= i < |pods| && pods[i].name == name && Holds(pods[i], client)
  }

  ghost predicate DistinctNames(pods: seq<Pod>) {
    forall i, j :: 0 <= i < j < |pods| ==> pods[i].name != pods[j].name
  }

  /** The pod lists each of its clients once, with the right flag, and only clients paired with it. */
  ghost predicate PodAgrees(edges: set<(string, string)>, connected: set<string>, pod: Pod) {
    && pod.clients != []
    && (forall k, l :: 0 <= k < l < |pod.clients| ==> pod.clients[k].id != pod.clients[l].id)
    && (forall k :: 0 <= k < |pod.clients| ==>
                      && (pod.clients[k].id, pod.name) in edges
                      && pod.clients[k].connected == (pod.clients[k].id in connected))
  }

  /** The list holds exactly the pairs whose pod is of this template. */
  ghost predicate Agrees(edges: set<(string, string)>, connected: set<string>, template: string, pods: seq<Pod>) {
    && DistinctNames(pods)
    && (forall i :: 0 <= i < |pods| ==> TemplateOf(pods[i].name) == template && PodAgrees(edges, connected, pods[i]))
    && (forall e :: e in edges && TemplateOf(e.1) == template ==> Lists(pods, e.0, e.1))
  }

  ghost predicate IndexAgrees(cfg: Config, edges: set<(string, string)>, connected: set<string>, index: Index) {
    && index.Keys == Templates(cfg).Keys
    && (forall t :: t in index ==>
                      index[t].template == Templates(cfg)[t] && Agrees(edges, connected, t, index[t].pods))
    && (forall e :: e in edges ==> TemplateOf(e.1) in Templates(cfg))
  }

  /** What a lookup in the index finds under a name that no template has. */
  const NO_VALUE := AllocationValue(ClientTemplate("", 0, []), [])

  function ValueOf(index: Index, template: string): AllocationValue {
    if template in index then index[template] else NO_VALUE
  }

  /** Agreement for pairs of any pods: an entry without a template stands for pods whose template is not in the session. */
  ghost predicate ListsAgree(cfg: Config, edges: set<(string, string)>, connected: set<string>, index: Index) {
    && index.Keys == Templates(cfg).Keys + TemplatesOf(edges)
    && forall t :: t in index ==>
                     && index[t].template == (if t in Templates(cfg) then Templates(cfg)[t] else NO_VALUE.template)
                     && Agrees(edges, connected, t, index[t].pods)
  }

  ghost function TemplatesOf(edges: set<(string, string)>): set<string> {
    set e | e in edges :: TemplateOf(e.1)
  }

  /** With pods of the session's templates only, that is agreement of the index. */
  lemma IndexAgreesIff(cfg: Config, edges: set<(string, string)>, connected: set<string>, index: Index)
    ensures IndexAgrees(cfg, edges, connected, index) <==>
            ListsAgree(cfg, edges, connected, index) && forall e :: e in edges ==> TemplateOf(e.1) in Templates(cfg)
  {
    hide Agrees, Templates, TemplateOf;
    assert forall e :: e in edges ==> TemplateOf(e.1) in TemplatesOf(edges);
  }

  /** The clients a status marks connected. */
  ghost function ConnectedClients(status: Statuses): set<string> {
    set c | c in status && Connected(status[c])
  }

  // ---- the two ways a list grows ----

  function AddToPod(pods: seq<Pod>, i: nat, client: PodClient): seq<Pod>
    requires i < |pods|
  {
    pods[i := pods[i].(clients := pods[i].clients + [client])]
  }

  function AddPod(pods: seq<Pod>, name: string, client: PodClient): seq<Pod> {
    pods + [Pod(name, [client])]
  }

  lemma AddToPodAgrees(edges: set<(string, string)>, connected: set<string>, template: string, pods: seq<Pod>,
                       i: nat, client: PodClient)
    requires Agrees(edges, connected, template, pods) && i < |pods|
    requires (client.id, pods[i].name) !in edges && client.connected == (client.id in connected)
    ensures Agrees(edges + {(client.id, pods[i].name)}, connected, template, AddToPod(pods, i, client))
  {
    var edges', pods' := edges + {(client.id, pods[i].name)}, AddToPod(pods, i, client);
    forall j | 0 <= j < |pods|
      ensures pods'[j].name == pods[j].name && PodAgrees(edges', connected, pods'[j])
    {
      assert PodAgrees(edges, connected, pods[j]);
    }
    forall e | e in edges' && TemplateOf(e.1) == template ensures Lists(pods', e.0, e.1) {
      AddToPodLists(pods, i, client, e.0, e.1);
    }
  }

  lemma AddToPodLists(pods: seq<Pod>, i: nat, client: PodClient, id: string, name: string)
    requires i < |pods| && (Lists(pods, id, name) || (id, name) == (client.id, pods[i].name))
    ensures Lists(AddToPod(pods, i, client), id, name)
  {
    var pods' := AddToPod(pods, i, client);
    if Lists(pods, id, name) {
      var j :| 0 <= j < |pods| && pods[j].name == name && Holds(pods[j], id);
      var k :| 0 <= k < |pods[j].clients| && pods[j].clients[k].id == id;
      assert pods'[j].clients[k].id == id;
      assert Holds(pods'[j], id);
    } else {
      assert pods'[i].clients[|pods[i].clients|].id == id;
      assert Holds(pods'[i], id);
    }
  }

  lemma AddPodAgrees(edges: set<(string, string)>, connected: set<string>, template: string, pods: seq<Pod>,
                     name: string, client: PodClient)
    requires Agrees(edges, connected, template, pods) && TemplateOf(name) == template
    requires forall i :: 0 <= i < |pods| ==> pods[i].name != name
    requires client.connected == (client.id in connected)
    ensures Agrees(edges + {(client.id, name)}, connected, template, AddPod(pods, name, client))
  {
    var edges', pods' := edges + {(client.id, name)}, AddPod(pods, name, client);
    assert pods'[|pods|].clients[0].id == client.id;
    assert Holds(pods'[|pods|], client.id);
    forall j | 0 <= j < |pods| ensures PodAgrees(edges', connected, pods'[j]) {
      assert PodAgrees(edges, connected, pods[j]);
    }
    forall e | e in edges && TemplateOf(e.1) == template ensures Lists(pods', e.0, e.1) {
      var j :| 0 <= j < |pods| && pods[j].name == e.1 && Holds(pods[j], e.0);
      assert pods'[j] == pods[j];
    }
  }

  /** A pair of another template leaves a list in agreement; so does a client with no pair becoming connected. */
  lemma UnrelatedAgrees(edges: set<(string, string)>, connected: set<string>, template: string, pods: seq<Pod>,
                        edges': set<(string, string)>, connected': set<string>)
    requires Agrees(edges, connected, template, pods)
    requires edges <= edges' && forall e :: e in edges' && TemplateOf(e.1) == template ==> e in edges
    requires forall e :: e in edges ==> (e.0 in connected <==> e.0 in connected')
    ensures Agrees(edges', connected', template, pods)
  {
    forall j | 0 <= j < |pods| ensures PodAgrees(edges', connected', pods[j]) {
      assert PodAgrees(edges, connected, pods[j]);
    }
  }

  // ---- counting ----

  /** Number of clients on all pods of a list. */
  function Total(pods: seq<Pod>): nat {
    if pods == [] then 0 else |pods[0].clients| + Total(pods[1..])
  }

  lemma {:induction false} TotalConcat(a: seq<Pod>, b: seq<Pod>)
    ensures Total(a + b) == Total(a) + Total(b)
  {
    if a == [] {
      assert a + b == b;
    } else {
      TotalConcat(a[1..], b);
      assert (a + b)[1..] == a[1..] + b;
    }
  }

  lemma TotalSplit(pods: seq<Pod>, i: nat)
    requires i < |pods|
    ensures Total(pods) == Total(pods[..i]) + |pods[i].clients| + Total(pods[i + 1..])
  {
    var rest := pods[i..];
    assert pods == pods[..i] + rest && rest[1..] == pods[i + 1..];
    TotalConcat(pods[..i], rest);
  }

  lemma TotalGrows(pods: seq<Pod>, i: nat, name: string, client: PodClient)
    ensures Total(AddPod(pods, name, client)) == Total(pods) + 1
    ensures i < |pods| ==> Total(AddToPod(pods, i, client)) == Total(pods) + 1
  {
    var added := [Pod(name, [client])];
    TotalConcat(pods, added);
    assert Total(added) == 1 + Total(added[1..]);
    if i < |pods| {
      var grown := AddToPod(pods, i, client);
      TotalSplit(pods, i);
      TotalSplit(grown, i);
      assert grown[..i] == pods[..i] && grown[i + 1..] == pods[i + 1..];
    }
  }

  lemma {:induction false} TotalBounds(pods: seq<Pod>, size: int)
    ensures (forall i :: 0 <= i < |pods| ==> |pods[i].clients| <= size) ==> Total(pods) <= size * |pods|
    ensures (forall i :: 0 <= i < |pods| ==> |pods[i].clients| == size) ==> Total(pods) == size * |pods|
  {
    if pods != [] {
      TotalBounds(pods[1..], size);
      assert size * |pods| == size + size * |pods[1..]|;
    }
  }

  // ---- packing ----

  ghost predicate Descending(pods: seq<Pod>) {
    forall i, j :: 0 <= i < j < |pods| ==> |pods[i].clients| >= |pods[j].clients|
  }

  /** No pod is over capacity, and a pod was opened beyond the `base` first ones only when those were all full. */
  ghost predicate Packed(size: int, base: nat, pods: seq<Pod>) {
    && (forall i :: 0 <= i < |pods| ==> |pods[i].clients| <= size)
    && |pods| >= base
    && (|pods| > base ==> Total(pods) > size * (|pods| - 1))
  }

  /** Position of the first pod with room, or -1. */
  ghost predicate FirstWithRoom(size: int, pods: seq<Pod>, i: int) {
    && -1 <= i < |pods|
    && (i >= 0 ==> |pods[i].clients| < size)
    && (forall j :: 0 <= j < (if i == -1 then |pods| else i) ==> |pods[j].clients| >= size)
  }

  /** The list after one placement: on pod `i`, or on a new pod called `name` when there is no such pod. */
  function Place(pods: seq<Pod>, i: int, name: string, client: PodClient): seq<Pod>
    requires -1 <= i < |pods|
  {
    if i == -1 then AddPod(pods, name, client) else AddToPod(pods, i, client)
  }

  /** Placing keeps the list packed and fullest first, and the pod chosen is a fullest one with room. */
  lemma PlacementPacks(size: int, base: nat, pods: seq<Pod>, i: int, name: string, client: PodClient)
    requires size >= 1 && Packed(size, base, pods) && Descending(pods) && FirstWithRoom(size, pods, i)
    ensures var pods' := Place(pods, i, name, client);
            Packed(size, base, pods') && Descending(pods') && Total(pods') == Total(pods) + 1
    ensures i >= 0 ==>
              forall j :: 0 <= j < |pods| && |pods[j].clients| < size ==> |pods[j].clients| <= |pods[i].clients|
  {
    TotalGrows(pods, if i == -1 then 0 else i, name, client);
    TotalBounds(pods, size);
    var pods' := Place(pods, i, name, client);
    if i == -1 {
      assert size * (|pods'| - 1) == size * |pods|;
    }
  }

  lemma MulOrder(size: int, a: int, b: int)
    requires size >= 0
    ensures a < b ==> size * a + size <= size * b
  {
    if a < b {
      assert size * b == size * a + size * (b - a);
      assert b - a >= 1 ==> size * (b - a) >= size;
    }
  }

  lemma MulStep(size: int, k: int)
    ensures size * (k + 1) == size * k + size
  {}

  lemma {:induction false} CeilDivBounds(n: nat, size: int)
    requires size >= 1
    ensures var q := CeilDiv(n, size); n <= size * q && size * q < n + size
  {
    if n > size {
      CeilDivBounds(n - size, size);
      MulStep(size, CeilDiv(n - size, size));
    }
  }

  lemma CeilDivIs(n: nat, size: int, k: nat)
    requires size >= 1 && n <= size * k && (k > 0 ==> n > size * (k - 1))
    ensures CeilDiv(n, size) == k
  {
    var q := CeilDiv(n, size);
    CeilDivBounds(n, size);
    MulOrder(size, q, k);
    MulOrder(size, k, q);
    MulStep(size, k - 1);
  }

  /** A packed list has as many pods as its clients need, but never fewer than it started with. */
  lemma PackedSize(size: int, base: nat, pods: seq<Pod>)
    requires size >= 1 && Packed(size, base, pods)
    ensures |pods| == Max(base, CeilDiv(Total(pods), size))
  {
    TotalBounds(pods, size);
    var n, k := Total(pods), |pods|;
    if k > base {
      CeilDivIs(n, size, k);
    } else {
      CeilDivBounds(n, size);
      MulOrder(size, k, CeilDiv(n, size));
    }
  }
}
