/** The list of conditions in a session's status, and setting the Ready one. */
module Conditions {
  datatype ConditionStatus = IsTrue | IsFalse | IsUnknown
  datatype Condition = Condition(kind: string, status: ConditionStatus, reason: string)

  const TYPE_READY := "Ready"
  const PODS_READY_REASON := "SessionPodsReady"
  const PODS_NOT_READY_REASON := "SessionPodsNotReady"
  const PODS_RECONCILED_REASON := "PodsHaveBeenReconciled"

  /** The conditions of one kind, or of all other kinds, in their order. */
  function Select(conditions: seq<Condition>, kind: string, same: bool): seq<Condition> {
    if conditions == [] then []
    else
      var first := conditions[0];
      (if (first.kind == kind) == same then [first] else []) + Select(conditions[1..], kind, same)
  }

  function Front(conditions: seq<Condition>): seq<Condition> {
    if conditions == [] then [] else conditions[..|conditions| - 1]
  }

  lemma {:induction false} SelectConcat(a: seq<Condition>, b: seq<Condition>, kind: string, same: bool)
    ensures Select(a + b, kind, same) == Select(a, kind, same) + Select(b, kind, same)
  {
    if a == [] {
      assert a + b == b;
    } else {
      var ab, head := a + b, if (a[0].kind == kind) == same then [a[0]] else [];
      assert ab[0] == a[0] && ab[1..] == a[1..] + b;
      SelectConcat(a[1..], b, kind, same);
      assert Select(a, kind, same) == head + Select(a[1..], kind, same);
      assert Select(ab, kind, same) == head + Select(ab[1..], kind, same);
    }
  }

  lemma {:induction false} NoneSelected(conditions: seq<Condition>, kind: string)
    requires forall i :: 0 <= i < |conditions| ==> conditions[i].kind != kind
    ensures Select(conditions, kind, true) == []
  {
    if conditions != [] {
      NoneSelected(conditions[1..], kind);
    }
  }

  /** The Ready condition was set: it stands last and takes the place of the last Ready entry there was; everything else is
      there as before and in its order. */
  ghost predicate ReadyIs(before: seq<Condition>, after: seq<Condition>, status: ConditionStatus, reason: string) {
    var ready := Condition(TYPE_READY, status, reason);
    && after != [] && after[|after| - 1] == ready
    && Select(after, TYPE_READY, true) == Front(Select(before, TYPE_READY, true)) + [ready]
    && Select(after, TYPE_READY, false) == Select(before, TYPE_READY, false)
  }

  /** A list with one Ready entry at most has exactly the new one afterwards. */
  lemma OneReadyEntry(before: seq<Condition>, after: seq<Condition>, status: ConditionStatus, reason: string)
    requires ReadyIs(before, after, status, reason) && |Select(before, TYPE_READY, true)| <= 1
    ensures Select(after, TYPE_READY, true) == [Condition(TYPE_READY, status, reason)]
  {}

  /** Where the last condition of a kind is, or -1. */
  method ContainsCondition(conditions: seq<Condition>, kind: string) returns (index: int)
    ensures -1 <= index < |conditions|
    ensures index != -1 ==> conditions[index].kind == kind
    ensures forall i :: index < i < |conditions| ==> conditions[i].kind != kind
  {
    index := -1;
    for i := 0 to |conditions|
      invariant -1 <= index < i
      invariant index != -1 ==> conditions[index].kind == kind
      invariant forall j :: index < j < i ==> conditions[j].kind != kind
    {
      if conditions[i].kind == kind {
        index := i;
      }
    }
  }

  lemma WithoutReady(conditions: seq<Condition>, index: int)
    requires -1 <= index < |conditions| && (index != -1 ==> conditions[index].kind == TYPE_READY)
    requires forall i :: index < i < |conditions| ==> conditions[i].kind != TYPE_READY
    ensures var rest := if index == -1 then conditions else conditions[..index] + conditions[index + 1..];
            && Select(rest, TYPE_READY, true) == Front(Select(conditions, TYPE_READY, true))
            && Select(rest, TYPE_READY, false) == Select(conditions, TYPE_READY, false)
  {
    if index == -1 {
      NoneSelected(conditions, TYPE_READY);
    } else {
      var a, b, c := conditions[..index], [conditions[index]], conditions[index + 1..];
      assert conditions == a + (b + c);
      NoneSelected(c, TYPE_READY);
      forall same: bool ensures Select(a + (b + c), TYPE_READY, same)
                                == Select(a, TYPE_READY, same) + (Select(b, TYPE_READY, same) + Select(c, TYPE_READY, same))
      {
        SelectConcat(b, c, TYPE_READY, same);
        SelectConcat(a, b + c, TYPE_READY, same);
      }
      SelectConcat(a, c, TYPE_READY, true);
      SelectConcat(a, c, TYPE_READY, false);
      assert Select(b, TYPE_READY, true) == b && Select(b, TYPE_READY, false) == [];
    }
  }

  lemma ReadyAppended(conditions: seq<Condition>, rest: seq<Condition>, status: ConditionStatus, reason: string)
    requires Select(rest, TYPE_READY, true) == Front(Select(conditions, TYPE_READY, true))
    requires Select(rest, TYPE_READY, false) == Select(conditions, TYPE_READY, false)
    ensures ReadyIs(conditions, rest + [Condition(TYPE_READY, status, reason)], status, reason)
  {
    var ready := Condition(TYPE_READY, status, reason);
    SelectConcat(rest, [ready], TYPE_READY, true);
    SelectConcat(rest, [ready], TYPE_READY, false);
    assert Select([ready], TYPE_READY, true) == [ready] && Select([ready], TYPE_READY, false) == [];
  }
}
