/**
 Work graphs proposed by the planner, and the order in which their units are done.
 */
module WorkPlan {
  import opened Prelude

  datatype WorkUnit = WorkUnit(
    id: string, candidates: seq<string>, references: seq<string>, newFiles: seq<string>, dependsOn: seq<string>)

  const MAX_UNITS: nat := 6
  const MAX_DEPENDENCIES: nat := 5

  predicate IsIdChar(c: char) {
    'a' <= c <= 'z' || '0' <= c <= '9' || c == '_' || c == '-'
  }

  predicate IsUnitId(id: string) {
    1 <= |id| <= 60 && forall i :: 0 <= i < |id| ==> IsIdChar(id[i])
  }

  predicate Disjoint(a: seq<string>, b: seq<string>) {
    forall x :: x in a ==> x !in b
  }

  /** The bounds of one unit: `bounded_files` and its field limits. */
  predicate ValidUnit(u: WorkUnit) {
    var paths := u.candidates + u.newFiles;
    && IsUnitId(u.id) && |u.candidates| <= 3 && |u.references| <= 3 && |u.newFiles| <= 2 && |u.dependsOn| <= MAX_DEPENDENCIES
    && 1 <= |paths| <= 3 && Distinct(paths) && Distinct(u.references) && Disjoint(paths, u.references)
  }

  function Ids(units: seq<WorkUnit>): set<string> {
    set u | u in units :: u.id
  }

  /** Every dependency is among the completed units. */
  predicate Ready(u: WorkUnit, done: set<string>) {
    forall d :: d in u.dependsOn ==> d in done
  }

  function FirstReady(pending: seq<WorkUnit>, done: set<string>): (r: Option<nat>)
    ensures r.Some? ==> r.value < |pending| && Ready(pending[r.value], done)
                        && forall i :: 0 <= i < r.value ==> !Ready(pending[i], done)
    ensures r.None? ==> forall i :: 0 <= i < |pending| ==> !Ready(pending[i], done)
  {
    if pending == [] then None
    else if Ready(pending[0], done) then Some(0)
    else
      var rest := FirstReady(pending[1..], done);
      if rest.None? then None else Some(rest.value + 1)
  }

  function Removed(pending: seq<WorkUnit>, i: nat): (r: seq<WorkUnit>)
    requires i < |pending|
    ensures |r| == |pending| - 1
  {
    pending[..i] + pending[i + 1..]
  }

  /** The order from a point at which some units are done; None is a cycle or an unknown dependency. */
  function OrderFrom(ordered: seq<WorkUnit>, pending: seq<WorkUnit>): Option<seq<WorkUnit>>
    decreases |pending|
  {
    if pending == [] then Some(ordered)
    else
      match FirstReady(pending, Ids(ordered))
      case None => None
      case Some(i) => OrderFrom(ordered + [pending[i]], Removed(pending, i))
  }

  function Ordered(units: seq<WorkUnit>): Option<seq<WorkUnit>> {
    OrderFrom([], units)
  }

  /** `valid_graph`, with the field limits of the graph. */
  predicate ValidGraph(units: seq<WorkUnit>) {
    && 1 <= |units| <= MAX_UNITS
    && (forall i :: 0 <= i < |units| ==> ValidUnit(units[i]))
    && (forall i, j :: 0 <= i < j < |units| ==> units[i].id != units[j].id)
    && Ordered(units).Some?
  }

  /** `ordered_units`: `ordered` grows and `pending` shrinks by the first ready unit. */
  method OrderedUnits(units: seq<WorkUnit>) returns (result: Option<seq<WorkUnit>>)
    ensures result == Ordered(units)
  {
    var ordered: seq<WorkUnit> := [];
    var pending := units;
    while pending != []
      invariant OrderFrom(ordered, pending) == Ordered(units)
      decreases |pending|
    {
      var completed := Ids(ordered);
      var i := 0;
      while i < |pending| && !Ready(pending[i], completed)
        invariant 0 <= i <= |pending|
        invariant forall j :: 0 <= j < i ==> !Ready(pending[j], completed)
      {
        i := i + 1;
      }
      if i == |pending| {
        return None;
      }
      assert FirstReady(pending, completed) == Some(i);
      ordered, pending := ordered + [pending[i]], Removed(pending, i);
    }
    return Some(ordered);
  }

  // ---------------------------------------------------------------- what the order is

  /** Every unit comes after all of its dependencies. */
  ghost predicate Follows(order: seq<WorkUnit>) {
    forall i :: 0 <= i < |order| ==> Ready(order[i], Ids(order[..i]))
  }

  ghost predicate Reorders(order: seq<WorkUnit>, units: seq<WorkUnit>) {
    multiset(order) == multiset(units)
  }

  /** `a` stands before `b`. */
  ghost predicate Precedes(units: seq<WorkUnit>, a: WorkUnit, b: WorkUnit) {
    exists i, j :: 0 <= i < j < |units| && units[i] == a && units[j] == b
  }

  /** A unit taken before one that stood ahead of it: the one ahead was not ready. */
  ghost predicate TakesEarliest(units: seq<WorkUnit>, order: seq<WorkUnit>, from: nat) {
    forall i, j :: from <= i < j < |order| && Precedes(units, order[j], order[i]) ==> !Ready(order[j], Ids(order[..i]))
  }

  lemma RemovedKeeps(pending: seq<WorkUnit>, i: nat)
    requires i < |pending|
    ensures multiset(pending) == multiset(Removed(pending, i)) + multiset{pending[i]}
  {
    assert pending == pending[..i] + ([pending[i]] + pending[i + 1..]);
  }

  lemma {:induction false} OrderIsValid(ordered: seq<WorkUnit>, pending: seq<WorkUnit>)
    requires Follows(ordered) && OrderFrom(ordered, pending).Some?
    ensures var order := OrderFrom(ordered, pending).value;
      ordered <= order && Reorders(order, ordered + pending) && Follows(order)
    decreases |pending|
  {
    if pending != [] {
      var i := FirstReady(pending, Ids(ordered)).value;
      var next := ordered + [pending[i]];
      assert next[..|ordered|] == ordered;
      assert forall k :: 0 <= k < |ordered| ==> next[..k] == ordered[..k];
      RemovedKeeps(pending, i);
      OrderIsValid(next, Removed(pending, i));
    }
  }

  lemma PrecedesRemoved(pending: seq<WorkUnit>, k: nat, a: WorkUnit, b: WorkUnit)
    requires k < |pending| && a != pending[k] && b != pending[k] && Precedes(pending, a, b)
    ensures Precedes(Removed(pending, k), a, b)
  {
    var i, j :| 0 <= i < j < |pending| && pending[i] == a && pending[j] == b;
    var rest := Removed(pending, k);
    var i', j' := if i < k then i else i - 1, if j < k then j else j - 1;
    assert rest[i'] == a && rest[j'] == b;
  }

  lemma Cancel(a: multiset<WorkUnit>, b: multiset<WorkUnit>, c: multiset<WorkUnit>)
    requires a + b == a + c
    ensures b == c
  {
    assert forall x :: (a + b)[x] == a[x] + b[x] && (a + c)[x] == a[x] + c[x];
    assert forall x :: b[x] == c[x];
  }

  /** The units that follow the done ones are the pending ones. */
  lemma LaterIsPending(ordered: seq<WorkUnit>, pending: seq<WorkUnit>, order: seq<WorkUnit>, j: nat)
    requires ordered <= order && Reorders(order, ordered + pending) && |ordered| <= j < |order|
    ensures order[j] in pending
  {
    var later := order[|ordered|..];
    assert order == ordered + later;
    assert multiset(ordered + later) == multiset(ordered) + multiset(later);
    assert multiset(ordered + pending) == multiset(ordered) + multiset(pending);
    Cancel(multiset(ordered), multiset(later), multiset(pending));
    assert later[j - |ordered|] == order[j];
    assert order[j] in multiset(later);
  }

  lemma {:induction false} OrderTakesEarliest(ordered: seq<WorkUnit>, pending: seq<WorkUnit>)
    requires Distinct(pending) && Follows(ordered) && OrderFrom(ordered, pending).Some?
    ensures TakesEarliest(pending, OrderFrom(ordered, pending).value, |ordered|)
    decreases |pending|
  {
    if pending != [] {
      var k := FirstReady(pending, Ids(ordered)).value;
      var next, rest := ordered + [pending[k]], Removed(pending, k);
      assert next[..|ordered|] == ordered;
      assert forall i :: 0 <= i < |ordered| ==> next[..i] == ordered[..i];
      OrderIsValid(next, rest);
      OrderTakesEarliest(next, rest);
      var order := OrderFrom(ordered, pending).value;
      forall i, j | |ordered| <= i < j < |order| && Precedes(pending, order[j], order[i])
        ensures !Ready(order[j], Ids(order[..i]))
      {
        LaterIsPending(next, rest, order, j);
        NotAgain(pending, k, order[j]);
        if i == |ordered| {
          assert order[..i] == ordered && order[i] == pending[k];
          EarlierIsNotReady(pending, k, order[j], Ids(ordered));
        } else {
          LaterIsPending(next, rest, order, i);
          NotAgain(pending, k, order[i]);
          PrecedesRemoved(pending, k, order[j], order[i]);
        }
      }
    }
  }

  lemma NotAgain(pending: seq<WorkUnit>, k: nat, u: WorkUnit)
    requires Distinct(pending) && k < |pending| && u in Removed(pending, k)
    ensures u != pending[k]
  {
  }

  lemma EarlierIsNotReady(pending: seq<WorkUnit>, k: nat, u: WorkUnit, done: set<string>)
    requires Distinct(pending) && k < |pending| && FirstReady(pending, done) == Some(k) && Precedes(pending, u, pending[k])
    ensures !Ready(u, done)
  {
    var i, j :| 0 <= i < j < |pending| && pending[i] == u && pending[j] == pending[k];
  }

  // ------------------------------------------------------- when there is no order

  /** With units still pending and none of them ready, no reordering of all units works. */
  lemma StuckMeansNoOrder(ordered: seq<WorkUnit>, pending: seq<WorkUnit>, order: seq<WorkUnit>)
    requires pending != [] && FirstReady(pending, Ids(ordered)).None?
    requires Reorders(order, ordered + pending)
    ensures !Follows(order)
  {
    var k := FirstPending(order, pending, ordered, 0);
    forall d | d in Ids(order[..k]) ensures d in Ids(ordered) {
      var u :| u in order[..k] && u.id == d;
      var j :| 0 <= j < k && order[j] == u;
      assert order[j] in multiset(ordered + pending);
    }
    NoneIsReady(pending, Ids(ordered), order[k]);
    assert !Ready(order[k], Ids(order[..k]));
  }

  lemma NoneIsReady(pending: seq<WorkUnit>, done: set<string>, u: WorkUnit)
    requires u in pending && FirstReady(pending, done).None?
    ensures !Ready(u, done)
  {
  }

  /** The first unit of an ordering that is still pending. */
  lemma {:induction false} FirstPending(order: seq<WorkUnit>, pending: seq<WorkUnit>, ordered: seq<WorkUnit>, from: nat) returns (k: nat)
    requires from <= |order| && pending != [] && Reorders(order, ordered + pending)
    requires forall j :: 0 <= j < from ==> order[j] !in pending
    ensures k < |order| && order[k] in pending && forall j :: 0 <= j < k ==> order[j] !in pending
    decreases |order| - from
  {
    assert pending[0] in multiset(ordered + pending);
    assert pending[0] in order;
    if order[from] in pending {
      k := from;
    } else {
      k := FirstPending(order, pending, ordered, from + 1);
    }
  }

  lemma {:induction false} NoneMeansNoOrder(ordered: seq<WorkUnit>, pending: seq<WorkUnit>, order: seq<WorkUnit>)
    requires OrderFrom(ordered, pending).None? && Reorders(order, ordered + pending)
    ensures !Follows(order)
    decreases |pending|
  {
    match FirstReady(pending, Ids(ordered))
    case None => StuckMeansNoOrder(ordered, pending, order);
    case Some(i) =>
      RemovedKeeps(pending, i);
      NoneMeansNoOrder(ordered + [pending[i]], Removed(pending, i), order);
  }

  /**
   `ordered_units` succeeds exactly when the units can be ordered at all; its order is a
   permutation in which every unit follows its dependencies, and the earliest ready one is taken.
   */
  lemma OrderedExactly(units: seq<WorkUnit>)
    ensures Ordered(units).Some? <==> exists order :: Reorders(order, units) && Follows(order)
    ensures Ordered(units).Some? ==> Reorders(Ordered(units).value, units) && Follows(Ordered(units).value)
    ensures Ordered(units).Some? && Distinct(units) ==> TakesEarliest(units, Ordered(units).value, 0)
  {
    assert [] + units == units;
    if Ordered(units).Some? {
      OrderIsValid([], units);
      if Distinct(units) {
        OrderTakesEarliest([], units);
      }
    } else {
      forall order | Reorders(order, units) ensures !Follows(order) {
        NoneMeansNoOrder([], units, order);
      }
    }
  }

  /** In the order, every dependency has an index smaller than that of the unit. */
  lemma DependenciesComeFirst(units: seq<WorkUnit>, i: nat, d: string)
    requires Ordered(units).Some? && i < |Ordered(units).value| && d in Ordered(units).value[i].dependsOn
    ensures exists j :: 0 <= j < i && Ordered(units).value[j].id == d
  {
    OrderedExactly(units);
    var order := Ordered(units).value;
    assert d in Ids(order[..i]);
    var u :| u in order[..i] && u.id == d;
    var j :| 0 <= j < i && order[j] == u;
  }
}
