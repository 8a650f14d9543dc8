/** When a change of a session is worth a pass. */
module SessionUpdates {
  /** Whether two client maps differ, decided by their sizes and a lookup of each new client. */
  method SessionUpdateFunc(older: map<string, bool>, newer: map<string, bool>) returns (changed: bool)
    ensures changed <==> older != newer
  {
    if |older| != |newer| {
      return true;
    }
    var todo := newer.Keys;
    while todo != {}
      invariant todo <= newer.Keys
      invariant forall c :: c in newer && c !in todo ==> c in older && older[c] == newer[c]
    {
      var client :| client in todo;
      if client !in older || older[client] != newer[client] {
        return true;
      }
      todo := todo - {client};
    }
    IncludedOfSameSize(newer.Keys, older.Keys);
    return false;
  }

  /** A set inside another of its size is that set. */
  lemma {:induction false} IncludedOfSameSize(part: set<string>, whole: set<string>)
    requires part <= whole && |part| == |whole|
    ensures part == whole
  {
    if part != {} {
      var x :| x in part;
      IncludedOfSameSize(part - {x}, whole - {x});
    }
  }
}
