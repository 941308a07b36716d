// `ORDER BY id`: rows are locked, scanned and read back in the order of their ids.
module IdOrder {

  predicate Ascending(ids: seq<nat>) { forall i, j | 0 <= i < j < |ids| :: ids[i] < ids[j] }

  ghost function Least(ids: set<nat>): (least: nat)
    requires ids != {}
    ensures least in ids && forall i | i in ids :: least <= i
  {
    var i :| i in ids;
    if ids == {i} then i
    else
      assert forall j | j in ids :: j == i || j in ids - {i};
      var rest := Least(ids - {i});
      if i <= rest then i else rest
  }

  /** The same id, found by a loop. */
  method First(ids: set<nat>) returns (least: nat)
    requires ids != {}
    ensures least in ids && forall i | i in ids :: least <= i
  {
    least :| least in ids;
    var rest := ids - {least};
    while rest != {}
      invariant rest <= ids && least in ids
      invariant forall i | i in ids && i !in rest :: least <= i
      decreases rest
    {
      var i :| i in rest;
      if i < least { least := i; }
      rest := rest - {i};
    }
  }
}
