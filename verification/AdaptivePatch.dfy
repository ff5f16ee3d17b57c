/**
 Adaptive execution: plans, replans and repairs under shared allowances. Models, tools and
 workspaces answer through oracles; what is proved holds for any answers.
 */
module AdaptivePatch {
  import opened Prelude
  import opened WorkPlan
  import opened WorkHistory

  // ------------------------------------------------------------- repair allowance

  datatype Classification = Productive | Marginal | Regressing | StalledWork

  datatype Allowance = Allowance(classification: Classification, continueWork: bool, mediumEffort: bool)

  /** `repair_allowance`: only fewer failing checks, and no new ones, earn another repair. */
  function RepairAllowance(previous: Option<set<string>>, current: set<string>, attempts: nat, limit: nat): Allowance {
    if current == {} then Allowance(Productive, false, false)
    else if attempts >= limit then Allowance(StalledWork, false, false)
    else if previous.None? then Allowance(Marginal, true, false)
    else if current < previous.value then Allowance(Productive, true, true)
    else if current - previous.value != {} then Allowance(Regressing, false, false)
    else Allowance(StalledWork, false, false)
  }

  /** After the first repair, work continues exactly when the failing checks strictly shrank and attempts remain. */
  lemma RepairsShrink(previous: set<string>, current: set<string>, attempts: nat, limit: nat)
    ensures RepairAllowance(Some(previous), current, attempts, limit).continueWork
       <==> current != {} && attempts < limit && current < previous
    ensures RepairAllowance(Some(previous), current, attempts, limit).classification == Regressing
       <==> current != {} && attempts < limit && exists c :: c in current && c !in previous
    ensures current == previous && current != {} ==> RepairAllowance(Some(previous), current, attempts, limit).classification == StalledWork
  {
    assert forall c :: c in current && c !in previous ==> c in current - previous;
    if current - previous != {} {
      var c :| c in current - previous;
      assert c in current && c !in previous;
    }
  }

  /** Sets that shrink at every step. */
  ghost predicate Shrinking(sets: seq<set<string>>) {
    forall i, j :: 0 <= i < j < |sets| ==> sets[j] < sets[i]
  }

  // -------------------------------------------------------------------- statuses

  datatype Phase = Localizing | Investigating | Planning | Replanning | Implementing | RepairingUnit | Integration | ReadyForValidation | Stopped

  function Touched(u: PublicUnit, phase: Phase, unit: Option<string>): PublicUnit {
    var status := if unit == Some(u.id) then (if phase == RepairingUnit then "REPAIRING" else "RUNNING") else u.status;
    u.(status := if phase == Stopped && (status == "RUNNING" || status == "REPAIRING") then "FAILED" else status)
  }

  function Finished(u: PublicUnit, id: string): PublicUnit {
    if u.id == id then u.(status := "READY") else u
  }

  function SupersededUnit(u: PublicUnit): PublicUnit {
    if u.status in {"PENDING", "RUNNING", "REPAIRING"} then u.(status := "SUPERSEDED") else u
  }

  /** No unit is RUNNING or REPAIRING. */
  predicate Quiet(units: seq<PublicUnit>) {
    forall u :: 0 <= u < |units| ==> units[u].status != "RUNNING" && units[u].status != "REPAIRING"
  }

  /** Every plan but the last is settled. */
  ghost predicate EarlierQuiet(plans: seq<PublicPlan>) {
    forall p :: 0 <= p < |plans| - 1 ==> Quiet(plans[p].units)
  }

  function TouchedUnits(units: seq<PublicUnit>, phase: Phase, unit: Option<string>): seq<PublicUnit> {
    seq(|units|, u requires 0 <= u < |units| => Touched(units[u], phase, unit))
  }

  function FinishedUnits(units: seq<PublicUnit>, id: string): seq<PublicUnit> {
    seq(|units|, u requires 0 <= u < |units| => Finished(units[u], id))
  }

  function SupersededUnits(units: seq<PublicUnit>): seq<PublicUnit> {
    seq(|units|, u requires 0 <= u < |units| => SupersededUnit(units[u]))
  }

  /** The plans with other units in the last one. */
  function WithLast(plans: seq<PublicPlan>, units: seq<PublicUnit>): seq<PublicPlan>
    requires plans != []
  {
    plans[|plans| - 1 := PublicPlan(plans[|plans| - 1].revision, units)]
  }

  function LastUnits(plans: seq<PublicPlan>): seq<PublicUnit> {
    if plans == [] then [] else plans[|plans| - 1].units
  }

  function Progressed(plans: seq<PublicPlan>, phase: Phase, unit: Option<string>): seq<PublicPlan> {
    if plans == [] then [] else WithLast(plans, TouchedUnits(LastUnits(plans), phase, unit))
  }

  function MarkedReady(plans: seq<PublicPlan>, id: string): seq<PublicPlan> {
    if plans == [] then [] else WithLast(plans, FinishedUnits(LastUnits(plans), id))
  }

  function AllSuperseded(plans: seq<PublicPlan>): seq<PublicPlan> {
    seq(|plans|, p requires 0 <= p < |plans| => PublicPlan(plans[p].revision, SupersededUnits(plans[p].units)))
  }

  /** The same units, with other statuses at most. */
  ghost predicate SameUnits(a: seq<PublicUnit>, b: seq<PublicUnit>) {
    |a| == |b| && forall u :: 0 <= u < |a| ==> b[u] == a[u].(status := b[u].status) && b[u].status in STATUSES
  }

  lemma SameUnitsStayValid(a: seq<PublicUnit>, b: seq<PublicUnit>)
    requires ValidUnits(a) && SameUnits(a, b)
    ensures ValidUnits(b)
  {
  }

  lemma TouchedStayValid(units: seq<PublicUnit>, phase: Phase, unit: Option<string>)
    requires ValidUnits(units)
    ensures ValidUnits(TouchedUnits(units, phase, unit))
    ensures phase == Stopped ==> Quiet(TouchedUnits(units, phase, unit))
  {
    SameUnitsStayValid(units, TouchedUnits(units, phase, unit));
  }

  lemma FinishedStayValid(units: seq<PublicUnit>, id: string)
    requires ValidUnits(units)
    ensures ValidUnits(FinishedUnits(units, id))
  {
    SameUnitsStayValid(units, FinishedUnits(units, id));
  }

  lemma SupersededStayValid(units: seq<PublicUnit>)
    requires ValidUnits(units)
    ensures ValidUnits(SupersededUnits(units)) && Quiet(SupersededUnits(units))
  {
    SameUnitsStayValid(units, SupersededUnits(units));
  }

  /** Revisions and sizes of plans, whatever their statuses. */
  ghost predicate SameOutline(a: seq<PublicPlan>, b: seq<PublicPlan>) {
    |a| == |b| && forall p :: 0 <= p < |a| ==> a[p].revision == b[p].revision && |a[p].units| == |b[p].units|
  }

  lemma WithLastKeeps(plans: seq<PublicPlan>, units: seq<PublicUnit>)
    requires ValidPlans(plans) && plans != [] && ValidUnits(units) && |units| == |LastUnits(plans)|
    ensures ValidPlans(WithLast(plans, units)) && SameOutline(plans, WithLast(plans, units)) && LastUnits(WithLast(plans, units)) == units
    ensures EarlierQuiet(plans) ==> EarlierQuiet(WithLast(plans, units))
  {
  }

  /** Marking progress keeps every bound on plans, and touches the last plan only. */
  lemma ProgressKeeps(plans: seq<PublicPlan>, phase: Phase, unit: Option<string>)
    requires ValidPlans(plans)
    ensures ValidPlans(Progressed(plans, phase, unit)) && SameOutline(plans, Progressed(plans, phase, unit))
    ensures LastUnits(Progressed(plans, phase, unit)) == TouchedUnits(LastUnits(plans), phase, unit)
    ensures EarlierQuiet(plans) ==> EarlierQuiet(Progressed(plans, phase, unit))
  {
    if plans != [] {
      assert ValidUnits(LastUnits(plans));
      TouchedStayValid(LastUnits(plans), phase, unit);
      WithLastKeeps(plans, TouchedUnits(LastUnits(plans), phase, unit));
    }
  }

  lemma ReadyKeeps(plans: seq<PublicPlan>, id: string)
    requires ValidPlans(plans)
    ensures ValidPlans(MarkedReady(plans, id)) && SameOutline(plans, MarkedReady(plans, id))
    ensures LastUnits(MarkedReady(plans, id)) == FinishedUnits(LastUnits(plans), id)
    ensures EarlierQuiet(plans) ==> EarlierQuiet(MarkedReady(plans, id))
  {
    if plans != [] {
      assert ValidUnits(LastUnits(plans));
      FinishedStayValid(LastUnits(plans), id);
      WithLastKeeps(plans, FinishedUnits(LastUnits(plans), id));
    }
  }

  lemma SupersedeKeeps(plans: seq<PublicPlan>)
    requires ValidPlans(plans)
    ensures ValidPlans(AllSuperseded(plans)) && SameOutline(plans, AllSuperseded(plans))
    ensures forall p :: 0 <= p < |plans| ==> Quiet(AllSuperseded(plans)[p].units)
  {
    var after := AllSuperseded(plans);
    forall p | 0 <= p < |plans| ensures ValidUnits(after[p].units) && Quiet(after[p].units) {
      assert ValidUnits(plans[p].units);
      SupersededStayValid(plans[p].units);
    }
  }

  // ---------------------------------------------------------------------- answers

  /** What one attempt at a unit meets. `Failing` carries the names of the failing checks. */
  datatype Attempt =
    | NoSource | NoRuntime | NoReferences | RequestStopped | Crashed | NotAPatch
    | ApplyFailed | OutsideScope | ToolsMissing | Passed | Failing(checks: set<string>)

  datatype PlanAnswer = PlanStopped | PlanCrashed | PlanBlocked | Proposed(units: seq<WorkUnit>)

  datatype Investigation = Grounded | Ungrounded | InvestigationStopped | InvestigationCrashed

  /** How a step ends early: the two codes that may be replanned, any other stop, or an exception. */
  datatype Stop = StalledStop | BlockedStop | OtherStop | Crash

  predicate Replannable(stop: Stop) {
    stop == StalledStop || stop == BlockedStop
  }

  /** One round: the answer to the plan request, its survey, the attempts of each unit, and what follows a stop. */
  datatype Round = Round(
    plan: PlanAnswer, paths: set<string>, attempts: nat -> nat -> Attempt, uncertain: bool,
    surveyed: bool, investigation: Investigation)

  /** Everything a turn meets. `started`: the sandbox and the workspace are available. */
  datatype World = World(
    started: bool, surveyed: bool, agentic: bool, investigation: Investigation, rounds: nat -> Round,
    integrated: bool, repairable: bool, repair: WorkUnit, repairAttempt: Attempt, reintegrated: bool)

  datatype Outcome = Done | RoundStopped(stop: Stop) | RecoveryStopped(stop: Stop)

  const UNIT_ALLOWANCE: nat := 6
  const UNKNOWN_FAILURE: set<string> := {"unknown-check-failure"}

  function FailingChecks(a: Attempt): set<string>
    requires a.Failing?
  {
    if a.checks == {} then UNKNOWN_FAILURE else a.checks
  }

  // -------------------------------------------------------------------- execution

  /** What follows one attempt: success, the end of the unit, or another attempt, earned by the failing checks if given. */
  datatype Verdict = Succeeds | Ends(stop: Stop) | Again(earned: Option<set<string>>)

  /** `tries` attempts were made, this one included; `previous` is what earned the last repair. */
  function Judge(a: Attempt, previous: Option<set<string>>, tries: nat, limit: nat): Verdict {
    match a
    case Passed => Succeeds
    case ApplyFailed => if tries >= 2 then Ends(StalledStop) else Again(None)
    case Failing(_) =>
      var allowance := RepairAllowance(previous, FailingChecks(a), tries, limit);
      if allowance.continueWork then Again(Some(FailingChecks(a)))
      else Ends(if allowance.classification == StalledWork then StalledStop else OtherStop)
    case NoSource => Ends(BlockedStop)
    case NotAPatch => Ends(BlockedStop)
    case Crashed => Ends(Crash)
    case _ => Ends(OtherStop)
  }

  function LastOf(earned: seq<set<string>>): Option<set<string>> {
    if earned == [] then None else Some(earned[|earned| - 1])
  }

  function Earned(earned: seq<set<string>>, more: Option<set<string>>): seq<set<string>> {
    if more.None? then earned else earned + [more.value]
  }

  /** Each set of failing checks that earns a repair is strictly within the one before it. */
  lemma EarnedShrinks(a: Attempt, earned: seq<set<string>>, tries: nat, limit: nat)
    requires Shrinking(earned) && Judge(a, LastOf(earned), tries, limit).Again?
    ensures Shrinking(Earned(earned, Judge(a, LastOf(earned), tries, limit).earned))
  {
    var more := Judge(a, LastOf(earned), tries, limit).earned;
    if more.Some? {
      var all := Earned(earned, more);
      forall i, j | 0 <= i < j < |all| ensures all[j] < all[i] {
        if j == |earned| && i < j - 1 {
          assert all[j] < all[j - 1] && earned[j - 1] < earned[i];
        }
      }
    }
  }

  datatype UnitEnd = UnitEnd(stop: Option<Stop>, earned: seq<set<string>>, tries: nat)

  /** How the attempts at a unit end, from attempt `tries` on. */
  function AttemptsEnd(answers: nat -> Attempt, attempts: nat, tries: nat, earned: seq<set<string>>): UnitEnd
    decreases attempts - tries
  {
    if tries >= attempts then UnitEnd(Some(OtherStop), earned, tries)
    else
      var verdict := Judge(answers(tries), LastOf(earned), tries + 1, attempts);
      if verdict.Succeeds? then UnitEnd(None, earned, tries + 1)
      else if verdict.Ends? then UnitEnd(Some(verdict.stop), earned, tries + 1)
      else AttemptsEnd(answers, attempts, tries + 1, Earned(earned, verdict.earned))
  }

  /** What one unit makes of its attempts, at most `attempts` of them. */
  function UnitEndOf(answers: nat -> Attempt, attempts: nat): UnitEnd {
    AttemptsEnd(answers, attempts, 0, [])
  }

  /** An attempt that another one may follow: a patch that did not apply, once, or failing checks. */
  predicate Retryable(a: Attempt, n: nat) {
    a.Failing? || (a.ApplyFailed? && n == 0)
  }

  /**
   A unit succeeds exactly when its last attempt passed; every earlier one was retryable, and
   each set of failing checks that earned another repair is strictly within the one before.
   */
  lemma {:induction false} AttemptsMean(answers: nat -> Attempt, attempts: nat, tries: nat, earned: seq<set<string>>)
    requires tries <= attempts && |earned| <= tries && Shrinking(earned)
    ensures var end := AttemptsEnd(answers, attempts, tries, earned);
      && tries <= end.tries <= attempts && |end.earned| <= end.tries && Shrinking(end.earned)
      && (end.stop.None? <==> end.tries > tries && answers(end.tries - 1).Passed?)
      && (forall n :: tries <= n < end.tries - 1 ==> Retryable(answers(n), n))
      && (tries < attempts ==> end.tries > tries)
    decreases attempts - tries
  {
    if tries < attempts {
      var verdict := Judge(answers(tries), LastOf(earned), tries + 1, attempts);
      if verdict.Again? {
        EarnedShrinks(answers(tries), earned, tries + 1, attempts);
        AttemptsMean(answers, attempts, tries + 1, Earned(earned, verdict.earned));
      }
    }
  }

  /** The phase in which attempt `n` is made; `failed` if the unit starts from a failure. */
  function AttemptPhase(failed: bool, n: nat): Phase {
    if failed || n > 0 then RepairingUnit else Implementing
  }

  /** The plans that a unit leaves: READY if it succeeded, else as its last attempt marked it. */
  function UnitLeaves(plans: seq<PublicPlan>, id: string, failed: bool, end: UnitEnd): seq<PublicPlan> {
    if end.stop.None? then MarkedReady(plans, id)
    else if end.tries == 0 then plans
    else Progressed(plans, AttemptPhase(failed, end.tries - 1), Some(id))
  }

  /** The snapshots that `n` attempts at a unit emit. */
  function Snapshots(plans: seq<PublicPlan>, id: string, failed: bool, n: nat): seq<seq<PublicPlan>> {
    if n == 0 then [] else Snapshots(plans, id, failed, n - 1) + [Progressed(plans, AttemptPhase(failed, n - 1), Some(id))]
  }

  /** Only the last mark of a unit counts. */
  lemma MarkedAgain(plans: seq<PublicPlan>, first: Phase, second: Phase, id: string)
    requires first != Stopped && second != Stopped
    ensures Progressed(Progressed(plans, first, Some(id)), second, Some(id)) == Progressed(plans, second, Some(id))
    ensures MarkedReady(Progressed(plans, first, Some(id)), id) == MarkedReady(plans, id)
  {
    var units := LastUnits(plans);
    var once := TouchedUnits(units, first, Some(id));
    assert TouchedUnits(once, second, Some(id)) == TouchedUnits(units, second, Some(id));
    assert FinishedUnits(once, id) == FinishedUnits(units, id);
    if plans != [] {
      assert Progressed(plans, first, Some(id)) == WithLast(plans, once);
      assert WithLast(WithLast(plans, once), FinishedUnits(units, id)) == WithLast(plans, FinishedUnits(units, id));
      assert WithLast(WithLast(plans, once), TouchedUnits(units, second, Some(id))) == WithLast(plans, TouchedUnits(units, second, Some(id)));
    }
  }

  const ATTEMPTS: nat := 4

  datatype RunEnd = RunEnd(stop: Option<Stop>, started: nat)

  /** How the units of a plan end from unit `k` on, and how many of them are started. */
  function UnitsEnd(order: seq<WorkUnit>, answers: nat -> nat -> Attempt, k: nat): RunEnd
    decreases |order| - k
  {
    if k >= |order| then RunEnd(None, k)
    else
      var end := UnitEndOf(answers(k), ATTEMPTS);
      if end.stop.Some? then RunEnd(end.stop, k + 1) else UnitsEnd(order, answers, k + 1)
  }

  /** Every unit succeeds, or all before the last one started did. */
  lemma {:induction false} UnitsMean(order: seq<WorkUnit>, answers: nat -> nat -> Attempt, k: nat)
    requires k <= |order|
    ensures var end := UnitsEnd(order, answers, k);
      && k <= end.started <= |order|
      && (end.stop.None? <==> forall n :: k <= n < |order| ==> UnitEndOf(answers(n), ATTEMPTS).stop.None?)
      && (end.stop.None? ==> end.started == |order|)
      && (end.stop.Some? ==> end.started > k && UnitEndOf(answers(end.started - 1), ATTEMPTS).stop == end.stop)
      && (forall n :: k <= n < end.started - 1 ==> UnitEndOf(answers(n), ATTEMPTS).stop.None?)
    decreases |order| - k
  {
    if k < |order| && UnitEndOf(answers(k), ATTEMPTS).stop.None? {
      UnitsMean(order, answers, k + 1);
    }
  }

  /** Units from `i` on refer only to available files, or to what an earlier unit creates, and create nothing that exists. */
  predicate Available(order: seq<WorkUnit>, paths: set<string>, i: nat)
    decreases |order| - i
  {
    i >= |order| || (
      && (forall p :: p in order[i].candidates + order[i].references ==> p in paths)
      && (forall p :: p in order[i].newFiles ==> p !in paths)
      && Available(order, paths + (set p | p in order[i].newFiles), i + 1))
  }

  /** A unit before unit `k` creates `p`. */
  predicate NewBefore(order: seq<WorkUnit>, k: nat, p: string) {
    exists j :: 0 <= j < k && j < |order| && p in order[j].newFiles
  }

  /** Unit `k` reads and edits what is there when it runs, and creates what is not. */
  ghost predicate UnitAvailable(order: seq<WorkUnit>, paths: set<string>, k: nat)
    requires k < |order|
  {
    && (forall p :: p in order[k].candidates + order[k].references ==> p in paths || NewBefore(order, k, p))
    && (forall p :: p in order[k].newFiles ==> p !in paths && !NewBefore(order, k, p))
  }

  /** The loop with its growing set accepts exactly the orders in which every unit is available. */
  lemma {:induction false} AvailableMeans(order: seq<WorkUnit>, paths: set<string>, available: set<string>, i: nat)
    requires i <= |order| && forall p :: p in available <==> p in paths || NewBefore(order, i, p)
    ensures Available(order, available, i) <==> forall k :: i <= k < |order| ==> UnitAvailable(order, paths, k)
    decreases |order| - i
  {
    if i < |order| {
      var more := available + (set p | p in order[i].newFiles);
      forall p ensures p in more <==> p in paths || NewBefore(order, i + 1, p) {
      }
      AvailableMeans(order, paths, more, i + 1);
      assert UnitAvailable(order, paths, i) <==>
        (forall p :: p in order[i].candidates + order[i].references ==> p in available) && (forall p :: p in order[i].newFiles ==> p !in available);
    }
  }

  /** What becomes of an answer to the plan request. */
  function PlanVerdict(answer: PlanAnswer, paths: set<string>, attempted: nat): Option<Stop>
    requires answer.Proposed? ==> ValidGraph(answer.units)
  {
    match answer
    case PlanStopped => Some(OtherStop)
    case PlanCrashed => Some(Crash)
    case PlanBlocked => Some(BlockedStop)
    case Proposed(units) =>
      if attempted + |Ordered(units).value| > UNIT_ALLOWANCE || !Available(Ordered(units).value, paths, 0)
      then Some(OtherStop) else None
  }

  predicate GraphValid(r: Round) {
    r.plan.Proposed? ==> ValidGraph(r.plan.units)
  }

  /** Every graph passed its own validation when it was parsed. */
  ghost predicate GraphsValid(rounds: nat -> Round) {
    forall n :: GraphValid(rounds(n))
  }

  /** How one round ends; `started` counts the units that were ever started. */
  function RoundEnd(r: Round, attempted: nat): RunEnd
    requires GraphValid(r)
  {
    var verdict := PlanVerdict(r.plan, r.paths, attempted);
    if verdict.Some? then RunEnd(verdict, attempted)
    else
      var end := UnitsEnd(Ordered(r.plan.units).value, r.attempts, 0);
      RunEnd(end.stop, attempted + end.started)
  }

  /** Another round follows: the stop may be replanned and no allowance is used up. */
  predicate AnotherFollows(r: Round, stop: Stop, replans: nat, limit: nat, attempted: nat) {
    Replannable(stop) && replans < limit && attempted < UNIT_ALLOWANCE && !r.uncertain
  }

  datatype GraphEnd = GraphEnd(outcome: Outcome, replans: nat, attempted: nat)

  /** What a round that stopped leads to: the end, or another round under the next number. */
  function AfterStop(r: Round, stop: Stop, replans: nat, limit: nat, attempted: nat): Option<Outcome> {
    if !AnotherFollows(r, stop, replans, limit, attempted) then Some(RoundStopped(stop))
    else if !r.surveyed then Some(RecoveryStopped(OtherStop))
    else if StopOfInvestigation(r.investigation).Some? then Some(RecoveryStopped(StopOfInvestigation(r.investigation).value))
    else None
  }

  /** The number of replans once that is known. */
  function ReplansAfter(r: Round, stop: Stop, replans: nat, limit: nat, attempted: nat): nat {
    if AnotherFollows(r, stop, replans, limit, attempted) then replans + 1 else replans
  }

  /** How the rounds end, from round `replans` on. */
  function RoundsEnd(rounds: nat -> Round, limit: nat, replans: nat, attempted: nat): GraphEnd
    requires GraphsValid(rounds)
    decreases limit - replans
  {
    assert GraphValid(rounds(replans));
    var r, end := rounds(replans), RoundEnd(rounds(replans), attempted);
    if end.stop.None? then GraphEnd(Done, replans, end.started)
    else
      var over := AfterStop(r, end.stop.value, replans, limit, end.started);
      if over.Some? then GraphEnd(over.value, ReplansAfter(r, end.stop.value, replans, limit, end.started), end.started)
      else RoundsEnd(rounds, limit, replans + 1, end.started)
  }

  /**
   Rounds end within both allowances, and a stop that could be replanned was not only because
   an allowance was used up or usage was uncertain.
   */
  lemma {:induction false} RoundsMean(rounds: nat -> Round, limit: nat, replans: nat, attempted: nat)
    requires GraphsValid(rounds) && replans <= limit && attempted <= UNIT_ALLOWANCE
    ensures var end := RoundsEnd(rounds, limit, replans, attempted);
      && replans <= end.replans <= limit && attempted <= end.attempted <= UNIT_ALLOWANCE
      && (end.outcome.RoundStopped? && Replannable(end.outcome.stop) ==>
            end.replans == limit || end.attempted == UNIT_ALLOWANCE || rounds(end.replans).uncertain)
      && (end.outcome.RecoveryStopped? ==> end.replans > replans)
    decreases limit - replans
  {
    var r := rounds(replans);
    assert GraphValid(r);
    var end := RoundEnd(r, attempted);
    RoundIsWithin(r, attempted);
    if end.stop.Some? && AfterStop(r, end.stop.value, replans, limit, end.started).None? {
      RoundsMean(rounds, limit, replans + 1, end.started);
    }
  }

  lemma RoundIsWithin(r: Round, attempted: nat)
    requires GraphValid(r) && attempted <= UNIT_ALLOWANCE
    ensures attempted <= RoundEnd(r, attempted).started <= UNIT_ALLOWANCE
  {
    if r.plan.Proposed? {
      UnitsMean(Ordered(r.plan.units).value, r.attempts, 0);
    }
  }

  predicate Integrates(world: World) {
    world.integrated || (world.repairable && world.repairAttempt.Passed? && world.reintegrated)
  }

  /** Whether a turn completes. */
  predicate Completes(world: World, limit: nat)
    requires GraphsValid(world.rounds)
  {
    && world.started && world.surveyed && (world.agentic ==> world.investigation == Grounded)
    && RoundsEnd(world.rounds, limit, 0, 0).outcome == Done
    && Integrates(world)
  }

  function StopOfInvestigation(i: Investigation): Option<Stop> {
    match i
    case Grounded => None
    case Ungrounded => Some(BlockedStop)
    case InvestigationStopped => Some(OtherStop)
    case InvestigationCrashed => Some(Crash)
  }

  // ------------------------------------------------------------------- new plans

  /** The index that `indices[id]` gives. */
  function IndexOfId(order: seq<WorkUnit>, id: string): (r: nat)
    ensures id in Ids(order) ==> r < |order| && order[r].id == id
    ensures forall k :: 0 <= k < r && k < |order| ==> order[k].id != id
  {
    if order == [] || order[0].id == id then 0 else 1 + IndexOfId(order[1..], id)
  }

  function PlannedUnit(order: seq<WorkUnit>, i: nat): PublicUnit
    requires i < |order|
  {
    var u := order[i];
    PublicUnit(u.id, seq(|u.dependsOn|, k requires 0 <= k < |u.dependsOn| => IndexOfId(order, u.dependsOn[k])), "PENDING")
  }

  function PlannedUnits(order: seq<WorkUnit>): seq<PublicUnit> {
    seq(|order|, i requires 0 <= i < |order| => PlannedUnit(order, i))
  }

  lemma {:induction false} OnceEach(units: seq<WorkUnit>, u: WorkUnit)
    requires Distinct(units)
    ensures multiset(units)[u] <= 1
  {
    if units != [] {
      HeadTail(units);
      OnceEach(units[1..], u);
      assert multiset(units) == multiset{units[0]} + multiset(units[1..]);
      assert u == units[0] ==> u !in units[1..];
    }
  }

  lemma Twice(order: seq<WorkUnit>, i: nat, j: nat)
    requires i < j < |order| && order[i] == order[j]
    ensures multiset(order)[order[i]] >= 2
  {
    assert order == order[..j] + order[j..];
    assert order[..j][i] == order[i] && order[j..][0] == order[j];
    assert multiset(order) == multiset(order[..j]) + multiset(order[j..]);
    assert order[i] in multiset(order[..j]) && order[j] in multiset(order[j..]);
  }

  /** The ids of a reordered graph are still unique, and its units still valid. */
  lemma ReorderedGraph(units: seq<WorkUnit>, order: seq<WorkUnit>)
    requires Reorders(order, units)
    requires forall i, j :: 0 <= i < j < |units| ==> units[i].id != units[j].id
    requires forall i :: 0 <= i < |units| ==> ValidUnit(units[i])
    ensures |order| == |units|
    ensures forall i :: 0 <= i < |order| ==> ValidUnit(order[i])
    ensures forall i, j :: 0 <= i < j < |order| ==> order[i].id != order[j].id
  {
    assert |multiset(order)| == |multiset(units)|;
    forall i | 0 <= i < |order| ensures order[i] in units {
      assert order[i] in multiset(order);
    }
    forall i, j | 0 <= i < j < |order| ensures order[i].id != order[j].id {
      if order[i] == order[j] {
        Twice(order, i, j);
        OnceEach(units, order[i]);
      }
    }
  }

  /** An ordered graph makes a plan that every reader accepts. */
  lemma PlannedIsValid(units: seq<WorkUnit>)
    requires ValidGraph(units)
    ensures ValidUnits(PlannedUnits(Ordered(units).value)) && 1 <= |Ordered(units).value| <= MAX_UNITS
  {
    var order := Ordered(units).value;
    OrderedExactly(units);
    ReorderedGraph(units, order);
    forall i, d | 0 <= i < |order| && d in PlannedUnit(order, i).dependsOn ensures 0 <= d < i {
      var k :| 0 <= k < |order[i].dependsOn| && d == IndexOfId(order, order[i].dependsOn[k]);
      DependenciesComeFirst(units, i, order[i].dependsOn[k]);
      var j :| 0 <= j < i && order[j].id == order[i].dependsOn[k];
      assert order[j] in order && order[i].dependsOn[k] in Ids(order);
    }
  }

  /** A new plan joins settled ones under a revision of its own. */
  lemma PlanJoins(plans: seq<PublicPlan>, revision: nat, units: seq<PublicUnit>)
    requires ValidPlans(plans) && (forall p :: 0 <= p < |plans| ==> Quiet(plans[p].units))
    requires ValidUnits(units) && 1 <= |units| <= MAX_UNITS && revision <= 1 && |plans| <= revision
    requires forall p :: 0 <= p < |plans| ==> plans[p].revision < revision
    ensures ValidPlans(plans + [PublicPlan(revision, units)]) && EarlierQuiet(plans + [PublicPlan(revision, units)])
  {
  }

  predicate AllReady(units: seq<PublicUnit>) {
    forall u :: 0 <= u < |units| ==> units[u].status == "READY"
  }

  /** The units of the plan are those of the order. */
  ghost predicate PlansFor(order: seq<WorkUnit>, units: seq<PublicUnit>) {
    && |units| == |order|
    && (forall u :: 0 <= u < |order| ==> units[u].id == order[u].id)
    && (forall u, v :: 0 <= u < v < |order| ==> order[u].id != order[v].id)
  }

  /** Between units: the first `k` are READY, the others PENDING. */
  ghost predicate Standing(order: seq<WorkUnit>, units: seq<PublicUnit>, k: int) {
    PlansFor(order, units) && forall u :: 0 <= u < |units| ==> units[u].status == if u < k then "READY" else "PENDING"
  }

  /** Within unit `k`: those before it are READY, those after it PENDING. */
  ghost predicate Interrupted(order: seq<WorkUnit>, units: seq<PublicUnit>, k: int) {
    PlansFor(order, units) && forall u :: 0 <= u < |units| ==>
      if u == k then units[u].status in {"RUNNING", "REPAIRING"} else units[u].status == if u < k then "READY" else "PENDING"
  }

  /** The results `done`, and then those of the first `n` units. */
  function WithResults(done: seq<string>, order: seq<WorkUnit>, n: nat): seq<string>
    requires n <= |order|
  {
    if n == 0 then done else WithResults(done, order, n - 1) + [order[n - 1].id]
  }

  /** The plans `plans` with other statuses in the last one. */
  ghost predicate Replaces(start: seq<PublicPlan>, plans: seq<PublicPlan>) {
    start != [] && plans != [] && SameOutline(start, plans) && plans == WithLast(start, LastUnits(plans))
  }

  lemma ReplacedAgain(plans: seq<PublicPlan>, first: seq<PublicPlan>, second: seq<PublicPlan>)
    requires Replaces(plans, first) && Replaces(first, second)
    ensures Replaces(plans, second)
  {
  }

  /** Unit `k` leaves the others as they stand. */
  lemma UnitStands(order: seq<WorkUnit>, plans: seq<PublicPlan>, k: nat, end: UnitEnd)
    requires plans != [] && k < |order| && Standing(order, LastUnits(plans), k) && end.tries > 0
    ensures var after := UnitLeaves(plans, order[k].id, false, end);
      && Replaces(plans, after)
      && if end.stop.None? then Standing(order, LastUnits(after), k + 1) else Interrupted(order, LastUnits(after), k)
  {
  }

  lemma PlannedStands(units: seq<WorkUnit>)
    requires ValidGraph(units)
    ensures Standing(Ordered(units).value, PlannedUnits(Ordered(units).value), 0)
  {
    OrderedExactly(units);
    ReorderedGraph(units, Ordered(units).value);
  }

  class Execution {
    const adaptiveReplans: nat
    var results: seq<string>
    var allowed: set<string>
    var totalUnits: nat
    var attemptedUnits: nat
    var replans: nat
    var workPlans: seq<PublicPlan>
    ghost var emitted: seq<seq<PublicPlan>>

    /** Plans and snapshots are within their bounds, and earlier plans are settled. */
    ghost predicate Sound()
      reads this`workPlans, this`emitted
    {
      ValidPlans(workPlans) && EarlierQuiet(workPlans) && forall s :: s in emitted ==> ValidPlans(s)
    }

    constructor (adaptiveReplans: nat)
      ensures Sound() && this.adaptiveReplans == adaptiveReplans
      ensures attemptedUnits == 0 && replans == 0 && workPlans == [] && emitted == [] && results == []
    {
      this.adaptiveReplans := adaptiveReplans;
      results, allowed, totalUnits, attemptedUnits, replans, workPlans, emitted := [], {}, 0, 0, 0, [], [];
    }

    /** `progress`: the named unit is marked in the last plan, and a snapshot is emitted. */
    method Progress(phase: Phase, unit: Option<string>)
      requires Sound()
      modifies this`workPlans, this`emitted
      ensures Sound() && workPlans == Progressed(old(workPlans), phase, unit)
      ensures emitted == old(emitted) + [workPlans]
    {
      if workPlans != [] {
        var units := LastUnits(workPlans);
        var u := 0;
        while u < |units|
          invariant 0 <= u <= |units| == |LastUnits(workPlans)|
          invariant forall v :: 0 <= v < u ==> units[v] == Touched(LastUnits(workPlans)[v], phase, unit)
          invariant forall v :: u <= v < |units| ==> units[v] == LastUnits(workPlans)[v]
        {
          units := units[u := Touched(units[u], phase, unit)];
          u := u + 1;
        }
        assert units == TouchedUnits(LastUnits(workPlans), phase, unit);
        workPlans := WithLast(workPlans, units);
      }
      ProgressKeeps(old(workPlans), phase, unit);
      emitted := emitted + [workPlans];
    }

    /** `save` of a unit's result: the unit is READY in the last plan. */
    method MarkReady(id: string)
      requires Sound()
      modifies this`workPlans
      ensures Sound() && workPlans == MarkedReady(old(workPlans), id) && SameOutline(old(workPlans), workPlans)
    {
      if workPlans != [] {
        var units := LastUnits(workPlans);
        var u := 0;
        while u < |units|
          invariant 0 <= u <= |units| == |LastUnits(workPlans)|
          invariant forall v :: 0 <= v < u ==> units[v] == Finished(LastUnits(workPlans)[v], id)
          invariant forall v :: u <= v < |units| ==> units[v] == LastUnits(workPlans)[v]
        {
          units := units[u := Finished(units[u], id)];
          u := u + 1;
        }
        assert units == FinishedUnits(LastUnits(workPlans), id);
        workPlans := WithLast(workPlans, units);
      }
      ReadyKeeps(old(workPlans), id);
    }

    /** The plans that a new one replaces. */
    method Supersede()
      requires Sound()
      modifies this`workPlans
      ensures workPlans == AllSuperseded(old(workPlans))
    {
      var p := 0;
      while p < |workPlans|
        invariant 0 <= p <= |workPlans| == |old(workPlans)|
        invariant forall q :: 0 <= q < p ==> workPlans[q] == AllSuperseded(old(workPlans))[q]
        invariant forall q :: p <= q < |workPlans| ==> workPlans[q] == old(workPlans)[q]
      {
        var units := workPlans[p].units;
        var u := 0;
        while u < |units|
          invariant 0 <= u <= |units| == |workPlans[p].units|
          invariant forall v :: 0 <= v < u ==> units[v] == SupersededUnit(workPlans[p].units[v])
          invariant forall v :: u <= v < |units| ==> units[v] == workPlans[p].units[v]
        {
          units := units[u := SupersededUnit(units[u])];
          u := u + 1;
        }
        assert units == SupersededUnits(workPlans[p].units);
        workPlans := workPlans[p := PublicPlan(workPlans[p].revision, units)];
        p := p + 1;
      }
    }

    /** `n` attempts at unit `id` were announced since the plans were `start` and the snapshots `log`. */
    ghost predicate Announced(start: seq<PublicPlan>, log: seq<seq<PublicPlan>>, id: string, failed: bool, n: nat)
      reads this`workPlans, this`emitted
    {
      && workPlans == (if n == 0 then start else Progressed(start, AttemptPhase(failed, n - 1), Some(id)))
      && emitted == log + Snapshots(start, id, failed, n)
    }

    /** `unit`: implement one unit, and repair it while its failing checks shrink. */
    method Unit(unit: WorkUnit, failed: bool, attempts: nat, answers: nat -> Attempt) returns (end: UnitEnd)
      requires Sound()
      modifies this`allowed, this`workPlans, this`emitted
      ensures Sound() && SameOutline(old(workPlans), workPlans)
      ensures end == UnitEndOf(answers, attempts) && end.tries <= attempts && Shrinking(end.earned)
      ensures workPlans == UnitLeaves(old(workPlans), unit.id, failed, end)
      ensures emitted == old(emitted) + Snapshots(old(workPlans), unit.id, failed, end.tries)
      ensures allowed == old(allowed) + (set p | p in unit.candidates + unit.newFiles)
    {
      allowed := allowed + (set p | p in unit.candidates + unit.newFiles);
      AttemptsMean(answers, attempts, 0, []);
      ghost var start := workPlans;
      end := Attempts(unit.id, failed, attempts, answers);
      if end.stop.None? {
        MarkedAgain(start, AttemptPhase(failed, end.tries - 1), Implementing, unit.id);
        MarkReady(unit.id);
      }
    }

    /** The attempts at a unit, each announced before it is made. */
    method Attempts(id: string, failed: bool, attempts: nat, answers: nat -> Attempt) returns (end: UnitEnd)
      requires Sound()
      modifies this`workPlans, this`emitted
      ensures Sound() && SameOutline(old(workPlans), workPlans)
      ensures end == UnitEndOf(answers, attempts)
      ensures Announced(old(workPlans), old(emitted), id, failed, end.tries)
    {
      var failure, tries, earned := failed, 0, [];
      while tries < attempts
        invariant 0 <= tries <= attempts && failure == (failed || tries > 0)
        invariant AttemptsEnd(answers, attempts, tries, earned) == UnitEndOf(answers, attempts)
        invariant Sound() && SameOutline(old(workPlans), workPlans)
        invariant Announced(old(workPlans), old(emitted), id, failed, tries)
      {
        Begin(old(workPlans), old(emitted), failed, tries, failure, id);
        tries := tries + 1;
        var verdict := Judge(answers(tries - 1), LastOf(earned), tries, attempts);
        if verdict.Succeeds? {
          return UnitEnd(None, earned, tries);
        } else if verdict.Ends? {
          return UnitEnd(Some(verdict.stop), earned, tries);
        }
        earned := Earned(earned, verdict.earned);
        failure := true;
      }
      end := UnitEnd(Some(OtherStop), earned, tries);
    }

    /** Attempt `n` at a unit is announced. */
    method Begin(ghost start: seq<PublicPlan>, ghost log: seq<seq<PublicPlan>>, ghost failed: bool, ghost n: nat, failure: bool, id: string)
      requires Sound() && SameOutline(start, workPlans) && Announced(start, log, id, failed, n)
      requires failure == (failed || n > 0)
      modifies this`workPlans, this`emitted
      ensures Sound() && SameOutline(start, workPlans) && Announced(start, log, id, failed, n + 1)
    {
      if n > 0 {
        MarkedAgain(start, AttemptPhase(failed, n - 1), AttemptPhase(failed, n), id);
      }
      Progress(if failure then RepairingUnit else Implementing, Some(id));
      ProgressKeeps(old(workPlans), AttemptPhase(failed, n), Some(id));
    }

    /** The six-unit allowance. */
    predicate WithinAllowance()
      reads this`results, this`attemptedUnits
    {
      |results| <= attemptedUnits <= UNIT_ALLOWANCE
    }

    /** Before the plan of revision `replans`: every plan so far has an earlier revision. */
    ghost predicate BeforePlan()
      reads this
    {
      |workPlans| <= replans <= 1 && forall p :: 0 <= p < |workPlans| ==> workPlans[p].revision < replans
    }

    /** With it: at most one plan of each revision up to `replans`. */
    ghost predicate WithPlan()
      reads this
    {
      |workPlans| <= replans + 1 && replans <= 1 && forall p :: 0 <= p < |workPlans| ==> workPlans[p].revision <= replans
    }

    /** `plan`: the ordered units of an accepted graph. The graph was validated when it was parsed. */
    method Plan(answer: PlanAnswer, paths: set<string>) returns (order: seq<WorkUnit>, stop: Option<Stop>)
      requires Sound() && BeforePlan() && attemptedUnits <= UNIT_ALLOWANCE
      requires answer.Proposed? ==> ValidGraph(answer.units)
      modifies this`workPlans, this`emitted, this`totalUnits
      ensures Sound() && WithPlan() && stop == PlanVerdict(answer, paths, attemptedUnits)
      ensures emitted == old(emitted) + [old(workPlans)]
      ensures stop.Some? ==> workPlans == old(workPlans) && totalUnits == old(totalUnits)
      ensures stop.None? ==>
        && order == Ordered(answer.units).value && totalUnits == |results| + |order|
        && workPlans == AllSuperseded(old(workPlans)) + [PublicPlan(replans, PlannedUnits(order))]
    {
      Announce(if replans > 0 then Replanning else Planning);
      order := [];
      match answer {
        case PlanStopped => return [], Some(OtherStop);
        case PlanCrashed => return [], Some(Crash);
        case PlanBlocked => return [], Some(BlockedStop);
        case Proposed(units) =>
          var ordered := OrderedUnits(units);
          order := ordered.value;
          if attemptedUnits + |order| > UNIT_ALLOWANCE {
            return order, Some(OtherStop);
          }
          var available := PathsAvailable(order, paths);
          if !available {
            return order, Some(OtherStop);
          }
          totalUnits := |results| + |order|;
          SupersedeKeeps(workPlans);
          Supersede();
          PlannedIsValid(units);
          PlanJoins(workPlans, replans, PlannedUnits(order));
          workPlans := workPlans + [PublicPlan(replans, PlannedUnits(order))];
          return order, None;
      }
    }

    /** Units only refer to files that exist, or that an earlier unit creates. */
    method PathsAvailable(order: seq<WorkUnit>, paths: set<string>) returns (ok: bool)
      ensures ok == Available(order, paths, 0)
    {
      var available := paths;
      var i := 0;
      while i < |order|
        invariant 0 <= i <= |order| && Available(order, paths, 0) == Available(order, available, i)
      {
        var u := order[i];
        if (exists p :: p in u.candidates + u.references && p !in available) || exists p :: p in u.newFiles && p in available {
          return false;
        }
        available := available + (set p | p in u.newFiles);
        i := i + 1;
      }
      return true;
    }

    /** `k` units of a plan were completed, after `done` and `before` attempted units. */
    ghost predicate Worked(order: seq<WorkUnit>, done: seq<string>, before: nat, k: nat)
      requires k <= |order|
      reads this`workPlans, this`results, this`attemptedUnits
    {
      && attemptedUnits == before + k && results == WithResults(done, order, k)
      && Standing(order, LastUnits(workPlans), k) && WithinAllowance()
    }

    /** Likewise, but the next unit has stopped. */
    ghost predicate Halted(order: seq<WorkUnit>, done: seq<string>, before: nat, k: nat)
      requires k <= |order|
      reads this`workPlans, this`results, this`attemptedUnits
    {
      && attemptedUnits == before + k + 1 && results == WithResults(done, order, k)
      && Interrupted(order, LastUnits(workPlans), k) && WithinAllowance()
    }

    /** One unit of a plan. */
    method RunUnit(order: seq<WorkUnit>, k: nat, answers: nat -> Attempt, ghost start: seq<PublicPlan>,
        ghost done: seq<string>, ghost before: nat)
      returns (unit: UnitEnd)
      requires Sound() && Replaces(start, workPlans) && k < |order| && before + |order| <= UNIT_ALLOWANCE
      requires Worked(order, done, before, k)
      modifies this`workPlans, this`emitted, this`allowed, this`results, this`attemptedUnits
      ensures Sound() && Replaces(start, workPlans) && unit == UnitEndOf(answers, ATTEMPTS)
      ensures if unit.stop.None? then Worked(order, done, before, k + 1) else Halted(order, done, before, k)
    {
      attemptedUnits := attemptedUnits + 1;
      ghost var plans := workPlans;
      AttemptsMean(answers, ATTEMPTS, 0, []);
      unit := Unit(order[k], false, ATTEMPTS, answers);
      UnitStands(order, plans, k, unit);
      ReplacedAgain(start, plans, workPlans);
      if unit.stop.None? {
        results := results + [order[k].id];
      }
    }

    /** The units of a plan, in order, until one of them stops. */
    method RunUnits(order: seq<WorkUnit>, answers: nat -> nat -> Attempt) returns (end: RunEnd)
      requires Sound() && Replaces(workPlans, workPlans) && attemptedUnits + |order| <= UNIT_ALLOWANCE
      requires Worked(order, results, attemptedUnits, 0)
      modifies this`workPlans, this`emitted, this`allowed, this`results, this`attemptedUnits
      ensures Sound() && Replaces(old(workPlans), workPlans)
      ensures end == UnitsEnd(order, answers, 0) && attemptedUnits == old(attemptedUnits) + end.started
      ensures end.stop.None? ==> Worked(order, old(results), old(attemptedUnits), |order|)
      ensures end.stop.Some? ==> 1 <= end.started <= |order| && Halted(order, old(results), old(attemptedUnits), end.started - 1)
    {
      var k := 0;
      while k < |order|
        invariant 0 <= k <= |order| && Sound() && Replaces(old(workPlans), workPlans)
        invariant UnitsEnd(order, answers, 0) == UnitsEnd(order, answers, k)
        invariant Worked(order, old(results), old(attemptedUnits), k)
      {
        var unit := RunUnit(order, k, answers(k), old(workPlans), old(results), old(attemptedUnits));
        if unit.stop.Some? {
          return RunEnd(unit.stop, k + 1);
        }
        k := k + 1;
      }
      return RunEnd(None, k);
    }

    /** One round of `execute_graph`: a plan and its units. */
    method RunRound(r: Round) returns (stop: Option<Stop>)
      requires Sound() && BeforePlan() && WithinAllowance()
      requires GraphValid(r)
      modifies this`workPlans, this`emitted, this`totalUnits, this`allowed, this`results, this`attemptedUnits
      ensures Sound() && WithPlan() && WithinAllowance() && attemptedUnits >= old(attemptedUnits)
      ensures RunEnd(stop, attemptedUnits) == RoundEnd(r, old(attemptedUnits))
      ensures stop.None? ==> workPlans != [] && AllReady(LastUnits(workPlans))
    {
      var order;
      order, stop := Plan(r.plan, r.paths);
      if stop.Some? {
        return;
      }
      PlannedStands(r.plan.units);
      var end := RunUnits(order, r.attempts);
      stop := end.stop;
    }

    /** The `except` branch of `execute_graph`: what follows a round that stopped. */
    method Recover(r: Round, stop: Stop) returns (over: Option<Outcome>)
      requires Sound() && WithPlan() && replans <= adaptiveReplans <= 1
      modifies this`workPlans, this`emitted, this`replans
      ensures Sound() && workPlans == old(workPlans) && replans <= adaptiveReplans
      ensures over == AfterStop(r, stop, old(replans), adaptiveReplans, attemptedUnits)
      ensures replans == ReplansAfter(r, stop, old(replans), adaptiveReplans, attemptedUnits)
    {
      if !Replannable(stop) || replans >= adaptiveReplans || attemptedUnits >= UNIT_ALLOWANCE || r.uncertain {
        return Some(RoundStopped(stop));
      }
      replans := replans + 1;
      if !r.surveyed {
        return Some(RecoveryStopped(OtherStop));
      }
      Announce(Investigating);
      var blocked := StopOfInvestigation(r.investigation);
      over := if blocked.Some? then Some(RecoveryStopped(blocked.value)) else None;
    }

    /** One pass of the loop of `execute_graph`. */
    method PassRound(rounds: nat -> Round) returns (over: Option<Outcome>)
      requires Sound() && BeforePlan() && replans <= adaptiveReplans <= 1 && WithinAllowance() && GraphsValid(rounds)
      modifies this`workPlans, this`emitted, this`totalUnits, this`allowed, this`results, this`attemptedUnits, this`replans
      ensures Sound() && replans <= adaptiveReplans && WithinAllowance()
      ensures over == Some(Done) ==> workPlans != [] && AllReady(LastUnits(workPlans))
      ensures over.Some? ==>
        && WithPlan()
        && RoundsEnd(rounds, adaptiveReplans, old(replans), old(attemptedUnits)) == GraphEnd(over.value, replans, attemptedUnits)
      ensures over.None? ==>
        && BeforePlan() && replans == old(replans) + 1
        && RoundsEnd(rounds, adaptiveReplans, old(replans), old(attemptedUnits)) == RoundsEnd(rounds, adaptiveReplans, replans, attemptedUnits)
    {
      var r := rounds(replans);
      assert GraphValid(r);
      var stop := RunRound(r);
      if stop.None? {
        return Some(Done);
      }
      over := Recover(r, stop.value);
    }

    /** `execute_graph`: rounds until one succeeds or may not be followed by another. */
    method ExecuteGraph(rounds: nat -> Round) returns (outcome: Outcome)
      requires Sound() && workPlans == [] && replans == 0 && results == [] && attemptedUnits == 0 && adaptiveReplans <= 1
      requires GraphsValid(rounds)
      modifies this`workPlans, this`emitted, this`totalUnits, this`allowed, this`results, this`attemptedUnits, this`replans
      ensures Sound() && WithPlan() && replans <= adaptiveReplans && WithinAllowance()
      ensures GraphEnd(outcome, replans, attemptedUnits) == RoundsEnd(rounds, adaptiveReplans, 0, 0)
      ensures outcome.Done? ==> workPlans != [] && AllReady(LastUnits(workPlans))
    {
      while true
        invariant Sound() && BeforePlan() && replans <= adaptiveReplans && WithinAllowance()
        invariant RoundsEnd(rounds, adaptiveReplans, replans, attemptedUnits) == RoundsEnd(rounds, adaptiveReplans, 0, 0)
        decreases adaptiveReplans - replans
      {
        var over := PassRound(rounds);
        if over.Some? {
          return over.value;
        }
      }
    }

    /** The body of `run`, up to its `finally`. */
    method TurnBody(world: World) returns (completed: bool)
      requires Sound() && workPlans == [] && replans == 0 && results == [] && attemptedUnits == 0 && adaptiveReplans <= 1
      requires GraphsValid(world.rounds)
      modifies this`workPlans, this`emitted, this`totalUnits, this`allowed, this`results, this`attemptedUnits, this`replans
      ensures Sound() && WithPlan() && replans <= adaptiveReplans && WithinAllowance()
      ensures completed == Completes(world, adaptiveReplans)
      ensures completed ==> workPlans != [] && AllReady(LastUnits(workPlans))
    {
      if !world.started {
        return false;
      }
      Progress(Localizing, None);
      if !world.surveyed {
        return false;
      }
      if world.agentic {
        Announce(Investigating);
        if world.investigation != Grounded {
          return false;
        }
      }
      var outcome := ExecuteGraph(world.rounds);
      if outcome != Done {
        return false;
      }
      completed := Integrate(world);
    }

    /** The checks across units, and the one repair that they may earn. */
    method Integrate(world: World) returns (completed: bool)
      requires Sound() && AllReady(LastUnits(workPlans))
      modifies this`workPlans, this`emitted, this`allowed
      ensures Sound() && SameOutline(old(workPlans), workPlans)
      ensures completed == Integrates(world)
      ensures completed ==> AllReady(LastUnits(workPlans))
    {
      Announce(Integration);
      if world.integrated {
        return true;
      }
      if !world.repairable {
        return false;
      }
      ReadyKeeps(workPlans, world.repair.id);
      AttemptsMean(_ => world.repairAttempt, 1, 0, []);
      var end := Unit(world.repair, true, 1, _ => world.repairAttempt);
      completed := end.stop.None? && world.reintegrated;
    }

    /** Progress that names no unit and stops none leaves every status as it is. */
    method Announce(phase: Phase)
      requires Sound() && phase != Stopped
      modifies this`workPlans, this`emitted
      ensures Sound() && workPlans == old(workPlans) && emitted == old(emitted) + [workPlans]
    {
      Progress(phase, None);
      NothingTouched(old(workPlans), phase);
    }

    /** `run`: whatever happened, the last snapshot shows how it ended. */
    method Run(world: World) returns (completed: bool)
      requires Sound() && workPlans == [] && replans == 0 && results == [] && attemptedUnits == 0 && adaptiveReplans <= 1
      requires GraphsValid(world.rounds)
      modifies this`workPlans, this`emitted, this`totalUnits, this`allowed, this`results, this`attemptedUnits, this`replans
      ensures completed == Completes(world, adaptiveReplans)
      ensures attemptedUnits <= UNIT_ALLOWANCE && replans <= adaptiveReplans && |workPlans| <= replans + 1
      ensures forall s :: s in emitted ==> PublicWorkPlans(ToJson(s)) == s
      ensures emitted != [] && emitted[|emitted| - 1] == workPlans
      ensures completed ==> workPlans != [] && AllReady(LastUnits(workPlans))
      ensures !completed ==> forall p :: 0 <= p < |workPlans| ==> Quiet(workPlans[p].units)
    {
      completed := TurnBody(world);
      if completed {
        Announce(ReadyForValidation);
      } else {
        ghost var before := workPlans;
        Progress(Stopped, None);
        ProgressKeeps(before, Stopped, None);
        EndsQuiet(before);
      }
      forall s | s in emitted ensures PublicWorkPlans(ToJson(s)) == s {
        AcceptedExactly(s);
      }
    }
  }

  lemma NothingTouched(plans: seq<PublicPlan>, phase: Phase)
    requires phase != Stopped
    ensures Progressed(plans, phase, None) == plans
  {
    assert TouchedUnits(LastUnits(plans), phase, None) == LastUnits(plans);
  }

  lemma EndsQuiet(plans: seq<PublicPlan>)
    requires ValidPlans(plans) && EarlierQuiet(plans)
    ensures forall p :: 0 <= p < |plans| ==> Quiet(Progressed(plans, Stopped, None)[p].units)
  {
    if plans != [] {
      assert ValidUnits(LastUnits(plans));
      TouchedStayValid(LastUnits(plans), Stopped, None);
    }
  }
}
