/** The order pods are filled in, and sorting by it. */
module PodOrder {
  import opened Strings
  import opened Names
  import opened Model
  import opened PodIndex

  predicate Dashed(pod: Pod) {
    '-' in pod.name
  }

  predicate AllDashed(pods: seq<Pod>) {
    forall i :: 0 <= i < |pods| ==> Dashed(pods[i])
  }

  /** `a` counts as smaller: fewer clients, or as many and a smaller id. */
  predicate ComparePods(a: Pod, b: Pod)
    requires Dashed(a) && Dashed(b)
  {
    |a.clients| < |b.clients| || (|a.clients| == |b.clients| && Less(PodId(a.name), PodId(b.name)))
  }

  predicate Before(a: Pod, b: Pod)
    requires Dashed(a) && Dashed(b)
  {
    !ComparePods(a, b)
  }

  predicate SameId(a: Pod, b: Pod)
    requires Dashed(a) && Dashed(b)
  {
    PodId(a.name) == PodId(b.name)
  }

  predicate DistinctIds(pods: seq<Pod>)
    requires AllDashed(pods)
  {
    forall i, j :: 0 <= i < j < |pods| ==> !SameId(pods[i], pods[j])
  }

  lemma BeforeAntisymmetric(a: Pod, b: Pod)
    requires Dashed(a) && Dashed(b) && !SameId(a, b)
    ensures Before(a, b) != Before(b, a)
  {
    LessTotal(PodId(a.name), PodId(b.name));
  }

  lemma BeforeTransitive(a: Pod, b: Pod, c: Pod)
    requires Dashed(a) && Dashed(b) && Dashed(c) && Before(a, b) && Before(b, c)
    ensures Before(a, c)
  {
    var x, y, z := PodId(a.name), PodId(b.name), PodId(c.name);
    LessTotal(x, y);
    LessTotal(y, z);
    LessTotal(x, z);
    if |a.clients| == |b.clients| == |c.clients| && x != y && y != z {
      LessTransitive(z, y, x);
    }
  }

  /** On distinct pods of one template, `Before` is a strict total order. */
  lemma BeforeIsStrictTotalOrder(session: string, a: Pod, b: Pod, c: Pod)
    requires ValidSession(session)
    requires WellNamed(session, a.name) && WellNamed(session, b.name) && WellNamed(session, c.name)
    requires TemplateOf(a.name) == TemplateOf(b.name) == TemplateOf(c.name)
    requires a.name != b.name && b.name != c.name && a.name != c.name
    ensures Dashed(a) && Dashed(b) && Dashed(c)
    ensures Before(a, b) != Before(b, a)
    ensures Before(a, b) && Before(b, c) ==> Before(a, c)
  {
    SameTemplateDifferentId(session, a.name, b.name);
    SameTemplateDifferentId(session, b.name, c.name);
    BeforeAntisymmetric(a, b);
    if Before(a, b) && Before(b, c) {
      BeforeTransitive(a, b, c);
    }
  }

  /** Distinct names of one template are distinct ids. */
  lemma FamilyHasDistinctIds(session: string, template: string, pods: seq<Pod>)
    requires ValidSession(session) && DistinctNames(pods)
    requires forall i :: 0 <= i < |pods| ==> WellNamed(session, pods[i].name) && TemplateOf(pods[i].name) == template
    ensures AllDashed(pods) && DistinctIds(pods)
  {
    forall i | 0 <= i < |pods| ensures Dashed(pods[i]) {
      WellNamedComposes(session, pods[i].name);
      IdOfClientPodName(session, template, Split(pods[i].name, '-')[3]);
    }
    forall i, j | 0 <= i < j < |pods| ensures !SameId(pods[i], pods[j]) {
      SameTemplateDifferentId(session, pods[i].name, pods[j].name);
    }
  }

  predicate Sorted(pods: seq<Pod>)
    requires AllDashed(pods)
  {
    forall i, j :: 0 <= i < j < |pods| ==> Before(pods[i], pods[j])
  }

  function InsertPod(pod: Pod, pods: seq<Pod>): (r: seq<Pod>)
    requires Dashed(pod) && AllDashed(pods)
    ensures |r| == |pods| + 1 && AllDashed(r)
  {
    if pods == [] || Before(pod, pods[0]) then [pod] + pods
    else [pods[0]] + InsertPod(pod, pods[1..])
  }

  /** Stands for the library sort; `SortIsDetermined` shows that no other sort by this order differs. */
  function SortPods(pods: seq<Pod>): (r: seq<Pod>)
    requires AllDashed(pods)
    ensures |r| == |pods| && AllDashed(r)
  {
    if pods == [] then [] else InsertPod(pods[0], SortPods(pods[1..]))
  }

  lemma {:induction false} InsertKeeps(pod: Pod, pods: seq<Pod>)
    requires Dashed(pod) && AllDashed(pods)
    ensures multiset(InsertPod(pod, pods)) == multiset{pod} + multiset(pods)
    ensures Total(InsertPod(pod, pods)) == |pod.clients| + Total(pods)
  {
    var r := InsertPod(pod, pods);
    if pods == [] || Before(pod, pods[0]) {
      assert r[1..] == pods;
    } else {
      InsertKeeps(pod, pods[1..]);
      assert r[1..] == InsertPod(pod, pods[1..]);
      assert pods == [pods[0]] + pods[1..];
    }
  }

  /** Sorting rearranges and loses nothing. */
  lemma {:induction false} SortKeeps(pods: seq<Pod>)
    requires AllDashed(pods)
    ensures multiset(SortPods(pods)) == multiset(pods)
    ensures Total(SortPods(pods)) == Total(pods)
  {
    if pods != [] {
      SortKeeps(pods[1..]);
      InsertKeeps(pods[0], SortPods(pods[1..]));
      assert pods == [pods[0]] + pods[1..];
    }
  }

  lemma SameElements(a: seq<Pod>, b: seq<Pod>)
    requires multiset(a) == multiset(b)
    ensures forall x :: x in a <==> x in b
    ensures |a| == |b|
  {
    assert forall x :: x in a <==> x in multiset(a);
    assert forall x :: x in b <==> x in multiset(b);
    assert |a| == |multiset(a)| && |b| == |multiset(b)|;
  }

  lemma InsertElements(pod: Pod, pods: seq<Pod>)
    requires Dashed(pod) && AllDashed(pods)
    ensures forall x :: x in InsertPod(pod, pods) <==> x == pod || x in pods
  {
    InsertKeeps(pod, pods);
    assert multiset([pod] + pods) == multiset{pod} + multiset(pods);
    SameElements(InsertPod(pod, pods), [pod] + pods);
  }

  lemma ConsDistinct(pod: Pod, pods: seq<Pod>)
    requires Dashed(pod) && AllDashed(pods) && DistinctIds(pods)
    requires forall x :: x in pods ==> !SameId(pod, x)
    ensures AllDashed([pod] + pods) && DistinctIds([pod] + pods)
  {
    var r := [pod] + pods;
    forall i, j | 0 <= i < j < |r| ensures Dashed(r[i]) && Dashed(r[j]) && !SameId(r[i], r[j]) {
      assert r[j] == pods[j - 1];
    }
  }

  lemma TailOrdered(pods: seq<Pod>)
    requires AllDashed(pods) && pods != []
    ensures DistinctIds(pods) ==> DistinctIds(pods[1..]) && forall x :: x in pods[1..] ==> !SameId(pods[0], x)
    ensures Sorted(pods) ==> Sorted(pods[1..])
  {
    assert forall i :: 0 <= i < |pods[1..]| ==> pods[1..][i] == pods[i + 1];
  }

  lemma {:induction false} InsertDistinct(pod: Pod, pods: seq<Pod>)
    requires Dashed(pod) && AllDashed(pods) && DistinctIds(pods)
    requires forall x :: x in pods ==> !SameId(pod, x)
    ensures DistinctIds(InsertPod(pod, pods))
  {
    if pods == [] || Before(pod, pods[0]) {
      ConsDistinct(pod, pods);
    } else {
      TailOrdered(pods);
      InsertDistinct(pod, pods[1..]);
      InsertElements(pod, pods[1..]);
      assert pods[0] in pods;
      ConsDistinct(pods[0], InsertPod(pod, pods[1..]));
    }
  }

  lemma {:induction false} InsertSorts(pod: Pod, pods: seq<Pod>)
    requires Dashed(pod) && AllDashed(pods) && Sorted(pods)
    requires forall x :: x in pods ==> !SameId(x, pod)
    ensures Sorted(InsertPod(pod, pods))
  {
    if pods != [] {
      BeforeAntisymmetric(pods[0], pod);
      if Before(pod, pods[0]) {
        forall j | 1 <= j < |pods| ensures Before(pod, pods[j]) {
          BeforeTransitive(pod, pods[0], pods[j]);
        }
      } else {
        var rest := InsertPod(pod, pods[1..]);
        InsertSorts(pod, pods[1..]);
        InsertElements(pod, pods[1..]);
        assert forall x :: x in pods[1..] ==> Before(pods[0], x);
        assert forall j :: 0 <= j < |rest| ==> rest[j] in rest;
      }
    }
  }

  lemma {:induction false} SortSorts(pods: seq<Pod>)
    requires AllDashed(pods) && DistinctIds(pods)
    ensures DistinctIds(SortPods(pods)) && Sorted(SortPods(pods))
  {
    if pods != [] {
      var rest := SortPods(pods[1..]);
      SortSorts(pods[1..]);
      SortKeeps(pods[1..]);
      SameElements(rest, pods[1..]);
      assert forall x :: x in pods[1..] ==> !SameId(pods[0], x);
      InsertDistinct(pods[0], rest);
      InsertSorts(pods[0], rest);
    }
  }

  /** Whatever algorithm sorts, the result is the same list. */
  lemma {:induction false} SortIsDetermined(a: seq<Pod>, b: seq<Pod>)
    requires AllDashed(a) && AllDashed(b) && DistinctIds(a)
    requires multiset(a) == multiset(b) && Sorted(a) && Sorted(b)
    ensures a == b
  {
    SameElements(a, b);
    if a != [] {
      FirstIsDetermined(a, b);
      TailOrdered(a);
      TailOrdered(b);
      TailElements(a);
      TailElements(b);
      SortIsDetermined(a[1..], b[1..]);
    }
  }

  lemma TailElements(pods: seq<Pod>)
    requires pods != []
    ensures pods == [pods[0]] + pods[1..]
    ensures multiset(pods[1..]) == multiset(pods) - multiset{pods[0]}
  {
    assert pods == [pods[0]] + pods[1..];
    assert multiset(pods) == multiset([pods[0]]) + multiset(pods[1..]);
  }

  lemma FirstIsDetermined(a: seq<Pod>, b: seq<Pod>)
    requires AllDashed(a) && AllDashed(b) && DistinctIds(a) && Sorted(a) && Sorted(b)
    requires a != [] && b != [] && forall x :: x in a <==> x in b
    ensures a[0] == b[0]
  {
    assert a[0] in b && b[0] in a;
    var i :| 0 <= i < |a| && a[i] == b[0];
    var j :| 0 <= j < |b| && b[j] == a[0];
    if i > 0 {
      BeforeAntisymmetric(a[0], a[i]);
    }
  }

  /** In a sorted list of distinct ids, a pod with more clients stands before one with fewer, and among equals the larger id
      comes first. */
  lemma SortedMeans(pods: seq<Pod>, i: nat, j: nat)
    requires AllDashed(pods) && Sorted(pods) && DistinctIds(pods) && i < |pods| && j < |pods| && i != j
    ensures i < j <==>
            || |pods[i].clients| > |pods[j].clients|
            || (|pods[i].clients| == |pods[j].clients| &&
                exists k: nat :: SplitsAt(PodId(pods[j].name), PodId(pods[i].name), k))
  {
    var a, b := if i < j then pods[i] else pods[j], if i < j then pods[j] else pods[i];
    var x, y := PodId(a.name), PodId(b.name);
    assert Before(a, b) && !SameId(a, b);
    LessTotal(x, y);
    if Less(y, x) {
      var k := LessSplits(y, x);
    }
    if k: nat :| SplitsAt(x, y, k) {
      SplitsIsLess(x, y, k);
    }
  }

  lemma SortedDescends(pods: seq<Pod>)
    requires AllDashed(pods) && Sorted(pods)
    ensures Descending(pods)
  {
    assert forall i, j :: 0 <= i < j < |pods| ==> Before(pods[i], pods[j]);
  }

  /** A sorted list agrees with the same pairs. */
  lemma SortAgrees(edges: set<(string, string)>, connected: set<string>, template: string, pods: seq<Pod>)
    requires Agrees(edges, connected, template, pods) && AllDashed(pods) && DistinctIds(pods)
    ensures Agrees(edges, connected, template, SortPods(pods))
  {
    var sorted := SortPods(pods);
    SortSorts(pods);
    SortKeeps(pods);
    SameElements(sorted, pods);
    assert DistinctNames(sorted) by {
      assert forall i, j :: 0 <= i < j < |sorted| ==> !SameId(sorted[i], sorted[j]);
    }
    assert forall p :: p in pods ==> TemplateOf(p.name) == template && PodAgrees(edges, connected, p);
    assert forall i :: 0 <= i < |sorted| ==> sorted[i] in sorted;
    forall e | e in edges && TemplateOf(e.1) == template ensures Lists(sorted, e.0, e.1) {
      var i :| 0 <= i < |pods| && pods[i].name == e.1 && Holds(pods[i], e.0);
      assert pods[i] in sorted;
    }
  }
}
