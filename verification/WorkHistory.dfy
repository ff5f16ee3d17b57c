/**
 Execution plans as receipts and read projections see them: any JSON value is reduced to
 bounded plans, or to none.
 */
module WorkHistory {
  import opened Prelude
  import opened Json
  import opened StructuralCompression
  import opened WorkPlan

  datatype PublicUnit = PublicUnit(id: string, dependsOn: seq<int>, status: string)

  datatype PublicPlan = PublicPlan(revision: int, units: seq<PublicUnit>)

  const STATUSES: set<string> := {"PENDING", "RUNNING", "REPAIRING", "READY", "FAILED", "SUPERSEDED"}
  const MAX_PLANS: nat := 6

  // ------------------------------------------------------------- the specification

  function UnitIds(units: seq<PublicUnit>): seq<string> {
    seq(|units|, i requires 0 <= i < |units| => units[i].id)
  }

  function Revisions(plans: seq<PublicPlan>): seq<int> {
    seq(|plans|, i requires 0 <= i < |plans| => plans[i].revision)
  }

  predicate AreIndices(items: seq<Json>, bound: int) {
    forall i :: 0 <= i < |items| ==> items[i].Int? && 0 <= items[i].n < bound
  }

  function Ints(items: seq<Json>): seq<int>
    requires forall i :: 0 <= i < |items| ==> items[i].Int?
  {
    seq(|items|, i requires 0 <= i < |items| => items[i].n)
  }

  /** One unit, after the units before it. */
  function ReadUnit(v: Json, before: seq<PublicUnit>): Option<PublicUnit> {
    if !v.Obj? then None
    else
      match (Lookup(v.members, "id"), Lookup(v.members, "depends_on"), Lookup(v.members, "status"))
      case (Some(Str(id)), Some(Arr(dependencies)), Some(Str(status))) =>
        if !IsUnitId(id) || id in UnitIds(before) || status !in STATUSES || |dependencies| > MAX_DEPENDENCIES
           || !AreIndices(dependencies, |before|) then None
        else Some(PublicUnit(id, Ints(dependencies), status))
      case _ => None
  }

  function ReadUnits(items: seq<Json>): (r: Option<seq<PublicUnit>>)
    ensures r.Some? ==> |r.value| == |items|
  {
    if items == [] then Some([])
    else
      var before := ReadUnits(items[..|items| - 1]);
      if before.None? then None
      else
        var unit := ReadUnit(items[|items| - 1], before.value);
        if unit.None? then None else Some(before.value + [unit.value])
  }

  /** One plan, after the plans before it. */
  function ReadPlan(v: Json, before: seq<PublicPlan>): Option<PublicPlan> {
    if !v.Obj? then None
    else
      match (Lookup(v.members, "revision"), Lookup(v.members, "units"))
      case (Some(Int(revision)), Some(Arr(units))) =>
        if revision in Revisions(before) || !(0 <= revision <= 6) || !(1 <= |units| <= MAX_UNITS) then None
        else
          var public := ReadUnits(units);
          if public.None? then None else Some(PublicPlan(revision, public.value))
      case _ => None
  }

  function ReadPlans(items: seq<Json>): Option<seq<PublicPlan>> {
    if items == [] then Some([])
    else
      var before := ReadPlans(items[..|items| - 1]);
      if before.None? then None
      else
        var plan := ReadPlan(items[|items| - 1], before.value);
        if plan.None? then None else Some(before.value + [plan.value])
  }

  /** `public_work_plans`: nothing is salvaged from a value with any defect. */
  function PublicWorkPlans(v: Json): seq<PublicPlan> {
    if !v.Arr? || |v.items| > MAX_PLANS then []
    else
      match ReadPlans(v.items)
      case None => []
      case Some(plans) => plans
  }

  // ----------------------------------------------------------------- the algorithm

  lemma {:induction false} PlansStop(items: seq<Json>, n: nat)
    requires n <= |items| && ReadPlans(items[..n]).None?
    ensures ReadPlans(items).None?
    decreases |items| - n
  {
    if n < |items| {
      assert items[..n + 1][..n] == items[..n];
      PlansStop(items, n + 1);
    } else {
      assert items[..n] == items;
    }
  }

  lemma {:induction false} UnitsStop(items: seq<Json>, n: nat)
    requires n <= |items| && ReadUnits(items[..n]).None?
    ensures ReadUnits(items).None?
    decreases |items| - n
  {
    if n < |items| {
      assert items[..n + 1][..n] == items[..n];
      UnitsStop(items, n + 1);
    } else {
      assert items[..n] == items;
    }
  }

  /** `any(...)` over the dependencies of one unit. */
  method IndicesOnly(dependencies: seq<Json>, bound: nat) returns (ok: bool)
    ensures ok == AreIndices(dependencies, bound)
  {
    var d := 0;
    while d < |dependencies|
      invariant 0 <= d <= |dependencies| && AreIndices(dependencies[..d], bound)
    {
      if !dependencies[d].Int? || !(0 <= dependencies[d].n < bound) {
        return false;
      }
      d := d + 1;
    }
    assert dependencies[..d] == dependencies;
    return true;
  }

  /** One pass of the inner loop; `seen` are the ids of the units before it. */
  method CollectUnit(unit: Json, seen: set<string>, before: seq<PublicUnit>) returns (result: Option<PublicUnit>)
    requires seen == set id | id in UnitIds(before)
    ensures result == ReadUnit(unit, before)
  {
    if !unit.Obj? {
      return None;
    }
    var id, dependencies, status := Lookup(unit.members, "id"), Lookup(unit.members, "depends_on"), Lookup(unit.members, "status");
    if id.None? || !id.value.Str? || !IsUnitId(id.value.s) || id.value.s in seen {
      return None;
    }
    if status.None? || !status.value.Str? || status.value.s !in STATUSES {
      return None;
    }
    if dependencies.None? || !dependencies.value.Arr? || |dependencies.value.items| > MAX_DEPENDENCIES {
      return None;
    }
    var ok := IndicesOnly(dependencies.value.items, |before|);
    if !ok {
      return None;
    }
    return Some(PublicUnit(id.value.s, Ints(dependencies.value.items), status.value.s));
  }

  /** The inner loop: the units of one plan. */
  method CollectUnits(units: seq<Json>) returns (result: Option<seq<PublicUnit>>)
    ensures result == ReadUnits(units)
  {
    var public: seq<PublicUnit>, seen: set<string> := [], {};
    var index := 0;
    while index < |units|
      invariant 0 <= index <= |units|
      invariant ReadUnits(units[..index]) == Some(public)
      invariant seen == set id | id in UnitIds(public)
    {
      assert units[..index + 1][..index] == units[..index];
      var unit := CollectUnit(units[index], seen, public);
      if unit.None? {
        UnitsStop(units, index + 1);
        return None;
      }
      assert UnitIds(public + [unit.value]) == UnitIds(public) + [unit.value.id];
      seen := seen + {unit.value.id};
      public := public + [unit.value];
      index := index + 1;
    }
    assert units[..index] == units;
    return Some(public);
  }

  /** One pass of the outer loop; `revisions` are those of the plans before it. */
  method CollectPlan(plan: Json, revisions: set<int>, ghost before: seq<PublicPlan>) returns (result: Option<PublicPlan>)
    requires revisions == set r | r in Revisions(before)
    ensures result == ReadPlan(plan, before)
  {
    if !plan.Obj? {
      return None;
    }
    var revision := Lookup(plan.members, "revision");
    if revision.None? || !revision.value.Int? || revision.value.n in revisions {
      return None;
    }
    var units := Lookup(plan.members, "units");
    if !(0 <= revision.value.n <= 6) || units.None? || !units.value.Arr? || !(1 <= |units.value.items| <= MAX_UNITS) {
      return None;
    }
    var public := CollectUnits(units.value.items);
    if public.None? {
      return None;
    }
    return Some(PublicPlan(revision.value.n, public.value));
  }

  /** `public_work_plans`: the loop over plans, and in it the loop over units. */
  method CollectPlans(value: Json) returns (result: seq<PublicPlan>)
    ensures result == PublicWorkPlans(value)
  {
    if !value.Arr? || |value.items| > MAX_PLANS {
      return [];
    }
    result := [];
    var revisions: set<int> := {};
    var p := 0;
    while p < |value.items|
      invariant 0 <= p <= |value.items|
      invariant ReadPlans(value.items[..p]) == Some(result)
      invariant revisions == set r | r in Revisions(result)
    {
      assert value.items[..p + 1][..p] == value.items[..p];
      var plan := CollectPlan(value.items[p], revisions, result);
      if plan.None? {
        PlansStop(value.items, p + 1);
        return [];
      }
      assert Revisions(result + [plan.value]) == Revisions(result) + [plan.value.revision];
      revisions := revisions + {plan.value.revision};
      result := result + [plan.value];
      p := p + 1;
    }
    assert value.items[..p] == value.items;
  }

  // --------------------------------------------------------------- what is accepted

  ghost predicate ValidUnits(units: seq<PublicUnit>) {
    && (forall i :: 0 <= i < |units| ==>
          && IsUnitId(units[i].id) && units[i].status in STATUSES && |units[i].dependsOn| <= MAX_DEPENDENCIES
          && forall d :: d in units[i].dependsOn ==> 0 <= d < i)
    && (forall i, j :: 0 <= i < j < |units| ==> units[i].id != units[j].id)
  }

  /** Bounded plans: distinct small revisions, and units that depend on earlier ones only. */
  ghost predicate ValidPlans(plans: seq<PublicPlan>) {
    && |plans| <= MAX_PLANS
    && (forall p :: 0 <= p < |plans| ==> 0 <= plans[p].revision <= 6 && 1 <= |plans[p].units| <= MAX_UNITS && ValidUnits(plans[p].units))
    && (forall p, q :: 0 <= p < q < |plans| ==> plans[p].revision != plans[q].revision)
  }

  function UnitJson(u: PublicUnit): Json {
    Obj([Member("id", Str(u.id)),
         Member("depends_on", Arr(seq(|u.dependsOn|, i requires 0 <= i < |u.dependsOn| => Int(u.dependsOn[i])))),
         Member("status", Str(u.status))])
  }

  function UnitsJson(units: seq<PublicUnit>): seq<Json> {
    seq(|units|, i requires 0 <= i < |units| => UnitJson(units[i]))
  }

  function PlanJson(p: PublicPlan): Json {
    Obj([Member("revision", Int(p.revision)), Member("units", Arr(UnitsJson(p.units)))])
  }

  function PlansJson(plans: seq<PublicPlan>): seq<Json> {
    seq(|plans|, i requires 0 <= i < |plans| => PlanJson(plans[i]))
  }

  /** The value that a running execution emits. */
  function ToJson(plans: seq<PublicPlan>): Json {
    Arr(PlansJson(plans))
  }

  lemma UnitFields(u: PublicUnit)
    ensures var m := UnitJson(u).members;
      Lookup(m, "id") == Some(m[0].value) && Lookup(m, "depends_on") == Some(m[1].value) && Lookup(m, "status") == Some(m[2].value)
  {
    assert "id"[0] == 'i' && "depends_on"[0] == 'd' && "status"[0] == 's';
    var m := UnitJson(u).members;
    assert m[1..][0] == m[1] && m[1..][1..][0] == m[2];
    assert Lookup(m[1..][1..], "status") == Some(m[2].value);
    assert Lookup(m[1..], "status") == Some(m[2].value);
  }

  lemma PlanFields(p: PublicPlan)
    ensures var m := PlanJson(p).members;
      Lookup(m, "revision") == Some(Int(p.revision)) && Lookup(m, "units") == Some(Arr(UnitsJson(p.units)))
  {
    assert "revision"[0] == 'r' && "units"[0] == 'u';
    var m := PlanJson(p).members;
    assert m[1..][0] == m[1];
  }

  /** Whether a unit is accepted after others. */
  ghost predicate UnitFits(u: PublicUnit, before: seq<PublicUnit>) {
    && IsUnitId(u.id) && u.id !in UnitIds(before) && u.status in STATUSES && |u.dependsOn| <= MAX_DEPENDENCIES
    && forall d :: d in u.dependsOn ==> 0 <= d < |before|
  }

  lemma UnitAccepted(u: PublicUnit, before: seq<PublicUnit>)
    ensures ReadUnit(UnitJson(u), before) == if UnitFits(u, before) then Some(u) else None
  {
    UnitFields(u);
    var items := UnitJson(u).members[1].value.items;
    assert Ints(items) == u.dependsOn;
    if AreIndices(items, |before|) {
      forall d | d in u.dependsOn ensures 0 <= d < |before| {
        var i :| 0 <= i < |u.dependsOn| && u.dependsOn[i] == d;
        assert items[i] == Int(d);
      }
    }
    if UnitFits(u, before) {
      assert forall i :: 0 <= i < |items| ==> items[i] == Int(u.dependsOn[i]) && u.dependsOn[i] in u.dependsOn;
    }
  }

  lemma ValidSplit(units: seq<PublicUnit>)
    requires units != []
    ensures var n := |units| - 1; ValidUnits(units) <==> ValidUnits(units[..n]) && UnitFits(units[n], units[..n])
  {
    var n := |units| - 1;
    if ValidUnits(units) {
      assert forall i :: 0 <= i < n ==> UnitIds(units[..n])[i] == units[i].id != units[n].id;
    }
    if ValidUnits(units[..n]) && UnitFits(units[n], units[..n]) {
      forall i | 0 <= i < n ensures units[i].id != units[n].id {
        assert UnitIds(units[..n])[i] in UnitIds(units[..n]);
      }
      assert forall i :: 0 <= i < n ==> units[..n][i] == units[i];
    }
  }

  lemma {:induction false} UnitsAccepted(units: seq<PublicUnit>)
    ensures ReadUnits(UnitsJson(units)) == if ValidUnits(units) then Some(units) else None
  {
    if units != [] {
      var n := |units| - 1;
      UnitsAccepted(units[..n]);
      assert UnitsJson(units)[..n] == UnitsJson(units[..n]);
      ValidSplit(units);
      UnitAccepted(units[n], units[..n]);
      assert units == units[..n] + [units[n]];
    }
  }

  ghost predicate PlanFits(p: PublicPlan, before: seq<PublicPlan>) {
    p.revision !in Revisions(before) && 0 <= p.revision <= 6 && 1 <= |p.units| <= MAX_UNITS && ValidUnits(p.units)
  }

  lemma PlanAccepted(p: PublicPlan, before: seq<PublicPlan>)
    ensures ReadPlan(PlanJson(p), before) == if PlanFits(p, before) then Some(p) else None
  {
    PlanFields(p);
    UnitsAccepted(p.units);
  }

  ghost predicate PlansFit(plans: seq<PublicPlan>) {
    && (forall p :: 0 <= p < |plans| ==> 0 <= plans[p].revision <= 6 && 1 <= |plans[p].units| <= MAX_UNITS && ValidUnits(plans[p].units))
    && (forall p, q :: 0 <= p < q < |plans| ==> plans[p].revision != plans[q].revision)
  }

  lemma FitSplit(plans: seq<PublicPlan>)
    requires plans != []
    ensures var n := |plans| - 1; PlansFit(plans) <==> PlansFit(plans[..n]) && PlanFits(plans[n], plans[..n])
  {
    var n := |plans| - 1;
    if PlansFit(plans) {
      assert forall i :: 0 <= i < n ==> Revisions(plans[..n])[i] == plans[i].revision != plans[n].revision;
    }
    if PlansFit(plans[..n]) && PlanFits(plans[n], plans[..n]) {
      forall i | 0 <= i < n ensures plans[i].revision != plans[n].revision {
        assert Revisions(plans[..n])[i] in Revisions(plans[..n]);
      }
      assert forall i :: 0 <= i < n ==> plans[..n][i] == plans[i];
    }
  }

  lemma {:induction false} PlansAccepted(plans: seq<PublicPlan>)
    ensures ReadPlans(PlansJson(plans)) == if PlansFit(plans) then Some(plans) else None
  {
    if plans != [] {
      var n := |plans| - 1;
      PlansAccepted(plans[..n]);
      assert PlansJson(plans)[..n] == PlansJson(plans[..n]);
      FitSplit(plans);
      PlanAccepted(plans[n], plans[..n]);
      assert plans == plans[..n] + [plans[n]];
    }
  }

  /** Plans pass unchanged exactly when they are within every bound, and otherwise not at all. */
  lemma AcceptedExactly(plans: seq<PublicPlan>)
    ensures PublicWorkPlans(ToJson(plans)) == if ValidPlans(plans) then plans else []
  {
    PlansAccepted(plans);
  }

  lemma {:induction false} ReadUnitsAreValid(items: seq<Json>)
    ensures ReadUnits(items).Some? ==> ValidUnits(ReadUnits(items).value)
  {
    if items != [] && ReadUnits(items).Some? {
      ReadUnitsAreValid(items[..|items| - 1]);
      var units := ReadUnits(items).value;
      var before := ReadUnits(items[..|items| - 1]).value;
      assert units[..|units| - 1] == before;
      var u := units[|units| - 1];
      UnitReadFits(items[|items| - 1], before);
      ValidSplit(units);
    }
  }

  lemma UnitReadFits(v: Json, before: seq<PublicUnit>)
    ensures ReadUnit(v, before).Some? ==> UnitFits(ReadUnit(v, before).value, before)
  {
  }

  lemma {:induction false} ReadPlansFit(items: seq<Json>)
    ensures ReadPlans(items).Some? ==> PlansFit(ReadPlans(items).value) && |ReadPlans(items).value| == |items|
  {
    if items != [] && ReadPlans(items).Some? {
      ReadPlansFit(items[..|items| - 1]);
      var plans := ReadPlans(items).value;
      var before := ReadPlans(items[..|items| - 1]).value;
      assert plans[..|plans| - 1] == before;
      PlanReadFits(items[|items| - 1], before);
      FitSplit(plans);
    }
  }

  lemma PlanReadFits(v: Json, before: seq<PublicPlan>)
    ensures ReadPlan(v, before).Some? ==> PlanFits(ReadPlan(v, before).value, before)
  {
    if ReadPlan(v, before).Some? {
      ReadUnitsAreValid(Lookup(v.members, "units").value.items);
    }
  }

  /** Whatever is read from any JSON value is bounded, and reading it again changes nothing. */
  lemma PublicIsIdempotent(v: Json)
    ensures ValidPlans(PublicWorkPlans(v))
    ensures PublicWorkPlans(ToJson(PublicWorkPlans(v))) == PublicWorkPlans(v)
  {
    if v.Arr? {
      ReadPlansFit(v.items);
    }
    AcceptedExactly(PublicWorkPlans(v));
  }
}
