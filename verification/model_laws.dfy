/** What the shared vocabulary means for the objects as they are stored: templates and ports by their position, pods by
    their owner and kind. */
module ModelLaws {
  import opened Model

  // ---- templates ----

  /** Every listed template is there under its name, and of two with one name the later counts. */
  lemma {:induction false} EveryTemplateIsMapped(items: seq<ClientTemplate>, i: nat)
    requires i < |items|
    ensures items[i].name in TemplateMap(items)
    ensures (forall k :: i < k < |items| ==> items[k].name != items[i].name) ==>
              TemplateMap(items)[items[i].name] == items[i]
  {
    var front, last := items[..|items| - 1], items[|items| - 1];
    if i < |front| {
      EveryTemplateIsMapped(front, i);
      assert front[i] == items[i];
      if last.name != items[i].name && forall k :: i < k < |items| ==> items[k].name != items[i].name {
        assert forall k :: i < k < |front| ==> front[k] == items[k];
      }
    }
  }

  lemma {:induction false} OnlyTemplatesAreMapped(items: seq<ClientTemplate>, t: string)
    requires t in TemplateMap(items)
    ensures exists i :: 0 <= i < |items| && items[i].name == t && TemplateMap(items)[t] == items[i]
  {
    var i :| 0 <= i < |items| && items[i] == TemplateMap(items)[t];
    assert items[i].name == t;
  }

  // ---- ports ----

  /** How many ports containers have together. */
  function PortCount(containers: seq<Container>): nat {
    if containers == [] then 0 else |containers[0].ports| + PortCount(containers[1..])
  }

  lemma {:induction false} PortCountLast(containers: seq<Container>)
    requires containers != []
    ensures PortCount(containers)
            == PortCount(containers[..|containers| - 1]) + |containers[|containers| - 1].ports|
  {
    var front := containers[..|containers| - 1];
    if |containers| == 1 {
      assert containers[1..] == [] && front == [];
    } else {
      PortCountLast(containers[1..]);
      assert front[1..] == containers[1..][..|containers| - 2];
      assert front[0] == containers[0];
    }
  }

  lemma {:induction false} AllPortsLength(containers: seq<Container>)
    ensures |AllPorts(containers)| == PortCount(containers)
  {
    if containers != [] {
      AllPortsLength(containers[..|containers| - 1]);
      PortCountLast(containers);
    }
  }

  /** Each port of each container has its place, after those of all earlier containers. */
  lemma {:induction false} AllPortsAt(containers: seq<Container>, i: nat, j: nat)
    requires i < |containers| && j < |containers[i].ports|
    ensures PortCount(containers[..i]) + j < |AllPorts(containers)|
    ensures AllPorts(containers)[PortCount(containers[..i]) + j] == containers[i].ports[j]
  {
    var front := containers[..|containers| - 1];
    AllPortsLength(front);
    if i < |front| {
      AllPortsAt(front, i, j);
      assert front[..i] == containers[..i] && front[i] == containers[i];
    } else {
      assert containers[..i] == front;
    }
  }

  /** And every port there is, is one of a container's. */
  lemma {:induction false} EveryPortIsSomeones(containers: seq<Container>, k: nat) returns (i: nat, j: nat)
    requires k < |AllPorts(containers)|
    ensures i < |containers| && j < |containers[i].ports| && k == PortCount(containers[..i]) + j
  {
    var front, last := containers[..|containers| - 1], containers[|containers| - 1];
    AllPortsLength(front);
    if k < |AllPorts(front)| {
      i, j := EveryPortIsSomeones(front, k);
      assert front[..i] == containers[..i] && front[i] == containers[i];
    } else {
      i, j := |containers| - 1, k - |AllPorts(front)|;
      assert containers[..i] == front;
    }
  }

  /** The paths of a fresh pod status, port by port. */
  lemma FreshPaths(pod: string, containers: seq<Container>, i: nat, j: nat)
    requires i < |containers| && j < |containers[i].ports|
    ensures |FreshPodStatus(pod, containers).paths| == PortCount(containers)
    ensures PortCount(containers[..i]) + j < PortCount(containers)
    ensures FreshPodStatus(pod, containers).paths[PortCount(containers[..i]) + j]
            == "/" + pod + "/" + containers[i].ports[j].name
  {
    AllPortsAt(containers, i, j);
    AllPortsLength(containers);
  }

  // ---- listings ----

  /** The two listings of a session divide its pods and leave out everybody else's. */
  lemma ListingsDivide(pods: Pods, owner: string, pod: string)
    ensures pod in Listing(pods, owner, ClientPod) || pod in Listing(pods, owner, SessionPod) <==>
            pod in pods && pods[pod].owner == owner
    ensures !(pod in Listing(pods, owner, ClientPod) && pod in Listing(pods, owner, SessionPod))
    ensures forall kind :: pod in Listing(pods, owner, kind) ==>
                             Listing(pods, owner, kind)[pod] == pods[pod] && pods[pod].kind == kind
  {}
}
