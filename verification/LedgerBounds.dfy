/**
 Budgets hold under every interleaving of admissions, settlements, stops and late receipts.
 */
module LedgerBounds {
  import opened Prelude
  import opened LedgerModel

  // ------------------------------------------------------------------ exposure

  function Part(r: Run, teamOf: seq<nat>, scope: Scope): real {
    if InScope(r, teamOf, scope) then Exposure(r) else 0.0
  }

  /** What a scope may have cost in the end: settled cost where known, else the reservation. */
  function Exposed(runs: seq<Run>, teamOf: seq<nat>, scope: Scope): real {
    if runs == [] then 0.0
    else Exposed(runs[..|runs| - 1], teamOf, scope) + Part(runs[|runs| - 1], teamOf, scope)
  }

  /** Where every cost is known, admission charges exactly the exposure. */
  lemma {:induction false} ChargedIsExposed(runs: seq<Run>, teamOf: seq<nat>, scope: Scope)
    requires !Unknown(runs, teamOf, scope)
    ensures Charged(runs, teamOf, scope) == Exposed(runs, teamOf, scope)
  {
    if runs != [] {
      var front := runs[..|runs| - 1];
      assert !Unknown(front, teamOf, scope);
      ChargedIsExposed(front, teamOf, scope);
    }
  }

  lemma {:induction false} ExposedInsert(runs: seq<Run>, r: Run, teamOf: seq<nat>, scope: Scope)
    ensures Exposed(runs + [r], teamOf, scope) == Exposed(runs, teamOf, scope) + Part(r, teamOf, scope)
  {
    assert (runs + [r])[..|runs|] == runs;
  }

  /** Exposure is conserved: changing one run changes the sum by exactly that run's difference. */
  lemma {:induction false} ExposedUpdate(runs: seq<Run>, i: nat, r: Run, teamOf: seq<nat>, scope: Scope)
    requires i < |runs|
    ensures Exposed(runs[i := r], teamOf, scope)
         == Exposed(runs, teamOf, scope) - Part(runs[i], teamOf, scope) + Part(r, teamOf, scope)
  {
    var front := runs[..|runs| - 1];
    if i == |runs| - 1 {
      assert runs[i := r][..|runs| - 1] == front;
    } else {
      ExposedUpdate(front, i, r, teamOf, scope);
      assert runs[i := r][..|runs| - 1] == front[i := r];
    }
  }

  /** A scope that takes no run for more than another one exposes no more. */
  lemma {:induction false} ExposedMonotone(runs: seq<Run>, after: seq<Run>, teamOf: seq<nat>, scope: Scope, wider: Scope)
    requires |after| == |runs|
    requires forall i :: 0 <= i < |runs| ==> Part(after[i], teamOf, scope) <= Part(runs[i], teamOf, wider)
    ensures Exposed(after, teamOf, scope) <= Exposed(runs, teamOf, wider)
  {
    if runs != [] {
      ExposedMonotone(runs[..|runs| - 1], after[..|runs| - 1], teamOf, scope, wider);
    }
  }

  // ----------------------------------------------------------------- invariants

  /** A running run has no cost yet; costs and reservations are never negative. */
  predicate RowFits(r: Run, tasks: nat) {
    && r.task < tasks
    && (r.status == Running ==> r.provider.None? && r.calculated.None? && r.turn.None?)
    && (r.reserved.Some? ==> r.reserved.value > 0.0)
    && (r.provider.Some? ==> r.provider.value >= 0.0)
    && (r.calculated.Some? ==> r.calculated.value >= 0.0)
    && (r.role == Developer <==> r.session.Some?)
  }

  ghost predicate RowsFit(s: State) {
    && |s.teamOf| == |s.tasks|
    && (forall t :: 0 <= t < |s.teamOf| ==> s.teamOf[t] < |s.teams|)
    && (forall r :: 0 <= r < |s.runs| ==> RowFits(s.runs[r], |s.tasks|))
    && (forall r :: r in s.metered ==> r < |s.runs| && s.runs[r].role != Developer && SettledCost(s.runs[r]).None?)
  }

  /** Settled cost where known, else the reservation, summed, never exceeds any budget. */
  ghost predicate WithinBudgets(s: State) {
    && (forall g :: 0 <= g < |s.teams| ==> Exposed(s.runs, s.teamOf, OfTeam(g)) <= s.teams[g].teamBudget)
    && (forall t :: 0 <= t < |s.teamOf| && s.teamOf[t] < |s.teams| ==>
          Exposed(s.runs, s.teamOf, OfTask(t)) <= s.teams[s.teamOf[t]].taskBudget)
    && (forall g :: 0 <= g < |s.teams| && s.teams[g].monthly.Some? ==>
          Exposed(s.runs, s.teamOf, OfTeamMonth(g, s.month)) <= s.teams[g].monthly.value)
    && (s.account.Some? ==> Exposed(s.runs, s.teamOf, OfAccountMonth(s.month)) <= s.account.value)
  }

  /** The final cost of a receipt that is accepted. */
  function FinalCost(r: Run, x: Receipt): Option<real> {
    SettledCost(Receipted(r, x))
  }

  /** The hypothesis: no settlement reports more than was reserved, and none a negative cost. */
  predicate CostWithin(cost: Option<real>, r: Run) {
    cost.Some? ==> 0.0 <= cost.value <= Reserved(r)
  }

  ghost predicate Honest(s: State, step: Step) {
    match step
    case Finishes(n, j, r, x, op) =>
      && (r < |s.runs| ==> CostWithin(FinalCost(s.runs[r], x), s.runs[r]))
      && (x.provider.Some? ==> x.provider.value >= 0.0)
      && (x.priced.Some? ==> x.priced.value >= 0.0)
    case Reports(r, cost) => r < |s.runs| ==> CostWithin(cost, s.runs[r])
    case _ => true
  }

  // ----------------------------------------------------------- row-level lemmas

  /** A change of one run that exposes no more in any scope keeps every budget. */
  lemma RowKeepsBudgets(s: State, i: nat, r: Run)
    requires WithinBudgets(s) && i < |s.runs|
    requires forall scope :: Part(r, s.teamOf, scope) <= Part(s.runs[i], s.teamOf, scope)
    ensures WithinBudgets(s.(runs := s.runs[i := r]))
  {
    forall scope ensures Exposed(s.runs[i := r], s.teamOf, scope) <= Exposed(s.runs, s.teamOf, scope) {
      ExposedUpdate(s.runs, i, r, s.teamOf, scope);
    }
  }

  /** Settling a run within its reservation exposes no more in any scope. */
  lemma SettlingExposesNoMore(r: Run, after: Run, teamOf: seq<nat>, scope: Scope)
    requires SettledCost(r).None? && (r.status == Running ==> r.provider.None? && r.calculated.None?)
    requires after.status != Running && after.reserved == r.reserved
    requires (after.task, after.role, after.month) == (r.task, r.role, r.month)
    requires CostWithin(SettledCost(after), r) && Reserved(r) >= 0.0
    ensures Part(after, teamOf, scope) <= Part(r, teamOf, scope)
  {
  }

  /** Whether a run is in a scope depends on its task, role, month, status and budget cost only. */
  lemma EndKeepsBudgets(s: State, i: nat, after: Run)
    requires RowsFit(s) && WithinBudgets(s) && i < |s.runs|
    requires SettledCost(s.runs[i]).None? && after.status != Running && after.reserved == s.runs[i].reserved
    requires (after.task, after.role, after.month) == (s.runs[i].task, s.runs[i].role, s.runs[i].month)
    requires CostWithin(SettledCost(after), s.runs[i])
    ensures WithinBudgets(s.(runs := s.runs[i := after]))
  {
    assert RowFits(s.runs[i], |s.tasks|);
    forall scope ensures Part(after, s.teamOf, scope) <= Part(s.runs[i], s.teamOf, scope) {
      SettlingExposesNoMore(s.runs[i], after, s.teamOf, scope);
    }
    RowKeepsBudgets(s, i, after);
  }

  // ------------------------------------------------------------------- admission

  /** An admitted reservation fits beside everything already exposed. */
  lemma AdmissionFits(s: State, t: nat, amount: real, role: Option<Role>, roleBudget: Option<real>, r: Run)
    requires WithinBudgets(s) && RowsFit(s)
    requires Reserve(s, t, amount, role, roleBudget).None?
    requires r.task == t && r.status == Running && r.reserved == Some(amount)
    ensures WithinBudgets(s.(runs := s.runs + [r]))
  {
    var g := s.teamOf[t];
    forall scope ensures Exposed(s.runs + [r], s.teamOf, scope) == Exposed(s.runs, s.teamOf, scope) + Part(r, s.teamOf, scope) {
      ExposedInsert(s.runs, r, s.teamOf, scope);
    }
    ChargedIsExposed(s.runs, s.teamOf, OfTeam(g));
    assert !Unknown(s.runs, s.teamOf, OfTask(t)) by {
      forall i | 0 <= i < |s.runs| && InScope(s.runs[i], s.teamOf, OfTask(t)) ensures BudgetCost(s.runs[i]).Some? {
        assert InScope(s.runs[i], s.teamOf, OfTeam(g));
      }
    }
    ChargedIsExposed(s.runs, s.teamOf, OfTask(t));
    if s.teams[g].monthly.Some? {
      ChargedIsExposed(s.runs, s.teamOf, OfTeamMonth(g, s.month));
    }
    if s.account.Some? {
      ChargedIsExposed(s.runs, s.teamOf, OfAccountMonth(s.month));
    }
  }

  /** Nothing is reserved for a Team while the cost of any of its runs is unknown. */
  lemma NoAdmissionWhileUnknown(s: State, step: Step, r: nat)
    requires RowsFit(s) && r < |s.runs| && BudgetCost(s.runs[r]).None?
    requires (step.Begins? && step.turn.reservation.Some? && step.turn.task < |s.tasks|
                && s.teamOf[step.turn.task] == s.teamOf[s.runs[r].task])
          || (step.BeginsMetered? && step.task < |s.tasks| && s.teamOf[step.task] == s.teamOf[s.runs[r].task])
    ensures Next(s, step) == s
  {
    assert RowFits(s.runs[r], |s.tasks|);
    assert Unknown(s.runs, s.teamOf, OfTeam(s.teamOf[s.runs[r].task]));
  }

  /** A planned allowance is admitted, if nothing changed and no monthly limit is nearer. */
  lemma AllowanceIsAdmissible(s: State, t: nat, hardLimit: real, minimum: real)
    requires Allowance(s, t, hardLimit, minimum).Ok?
    requires Spendable(s, t, None) && s.account.None? && s.teams[s.teamOf[t]].monthly.None?
    ensures Allowance(s, t, hardLimit, minimum).value >= minimum
    ensures Reserve(s, t, Allowance(s, t, hardLimit, minimum).value, None, None).None?
    ensures forall more :: more > Allowance(s, t, hardLimit, minimum).value && hardLimit >= s.teams[s.teamOf[t]].taskBudget ==>
      Reserve(s, t, more, None, None) == Some(BudgetExhausted)
  {
  }

  // ------------------------------------------------------------------ each step

  lemma StopKeepsRows(s: State, job: nat, code: string)
    requires RowsFit(s)
    ensures RowsFit(StopJob(s, job, code))
  {
    forall r | 0 <= r < |s.runs| ensures RowFits(StopJob(s, job, code).runs[r], |s.tasks|) {
      assert RowFits(s.runs[r], |s.tasks|);
    }
  }

  lemma StopKeepsBudgets(s: State, job: nat, code: string)
    requires RowsFit(s) && WithinBudgets(s)
    ensures WithinBudgets(StopJob(s, job, code))
  {
    var s' := StopJob(s, job, code);
    forall scope ensures Exposed(s'.runs, s.teamOf, scope) <= Exposed(s.runs, s.teamOf, scope) {
      forall i | 0 <= i < |s.runs| ensures Part(s'.runs[i], s.teamOf, scope) <= Part(s.runs[i], s.teamOf, scope) {
        assert RowFits(s.runs[i], |s.tasks|);
      }
      ExposedMonotone(s.runs, s'.runs, s.teamOf, scope, scope);
    }
  }

  lemma NextMonthKeepsBudgets(s: State)
    requires RowsFit(s) && WithinBudgets(s)
    ensures WithinBudgets(s.(month := s.month + 1))
  {
    forall i, scope | 0 <= i < |s.runs| ensures Part(s.runs[i], s.teamOf, scope) >= 0.0 {
      assert RowFits(s.runs[i], |s.tasks|);
    }
    forall g: nat ensures Exposed(s.runs, s.teamOf, OfTeamMonth(g, s.month + 1)) <= Exposed(s.runs, s.teamOf, OfTeamMonth(g, s.month)) {
      ExposedMonotone(s.runs, s.runs, s.teamOf, OfTeamMonth(g, s.month + 1), OfTeamMonth(g, s.month));
    }
    ExposedMonotone(s.runs, s.runs, s.teamOf, OfAccountMonth(s.month + 1), OfAccountMonth(s.month));
  }

  lemma BeginKeeps(s: State, b: Turn)
    requires RowsFit(s) && WithinBudgets(s)
    ensures RowsFit(Begin(s, b)) && WithinBudgets(Begin(s, b))
  {
    if Admissible(s, b) {
      var r := Begin(s, b).runs[|s.runs|];
      if b.reservation.Some? {
        AdmissionFits(s, b.task, b.reservation.value, None, None, r);
      } else {
        forall scope ensures Exposed(s.runs + [r], s.teamOf, scope) == Exposed(s.runs, s.teamOf, scope) {
          ExposedInsert(s.runs, r, s.teamOf, scope);
        }
      }
    }
  }

  lemma FinishKeeps(s: State, n: nat, j: nat, r: nat, x: Receipt, op: Operation)
    requires RowsFit(s) && WithinBudgets(s) && Honest(s, Finishes(n, j, r, x, op))
    ensures RowsFit(Finish(s, n, j, r, x, op)) && WithinBudgets(Finish(s, n, j, r, x, op))
  {
    var verdict := Judge(s, n, j, r, x);
    if verdict == Settled || verdict == InvalidRouting {
      assert RowFits(s.runs[r], |s.tasks|);
      EndKeepsBudgets(s, r, Receipted(s.runs[r], x));
    }
  }

  lemma BeginMeteredKeeps(s: State, t: nat, role: Role, job: Option<nat>, amount: real, roleBudget: Option<real>)
    requires RowsFit(s) && WithinBudgets(s)
    ensures RowsFit(BeginMetered(s, t, role, job, amount, roleBudget))
    ensures WithinBudgets(BeginMetered(s, t, role, job, amount, roleBudget))
  {
    if role != Developer && Reserve(s, t, amount, Some(role), roleBudget).None? {
      AdmissionFits(s, t, amount, Some(role), roleBudget, BeginMetered(s, t, role, job, amount, roleBudget).runs[|s.runs|]);
    }
  }

  lemma ReportKeeps(s: State, r: nat, cost: Option<real>)
    requires RowsFit(s) && WithinBudgets(s) && Honest(s, Reports(r, cost))
    ensures RowsFit(ReportMetered(s, r, cost)) && WithinBudgets(ReportMetered(s, r, cost))
  {
    if r in s.metered && r < |s.runs| {
      assert RowFits(s.runs[r], |s.tasks|);
      EndKeepsBudgets(s, r, ReportMetered(s, r, cost).runs[r]);
    }
  }

  lemma FailMeteredKeeps(s: State, r: nat, code: string)
    requires RowsFit(s) && WithinBudgets(s)
    ensures RowsFit(FailMetered(s, r, code)) && WithinBudgets(FailMetered(s, r, code))
  {
    var s' := FailMetered(s, r, code);
    if r < |s.runs| && s.runs[r].role != Developer {
      assert RowFits(s.runs[r], |s.tasks|);
      if s.runs[r].role == Interpreter && s.runs[r].status != Running {
      } else if SettledCost(s.runs[r]).None? {
        EndKeepsBudgets(s, r, s'.runs[r]);
      } else {
        RowKeepsBudgets(s, r, s'.runs[r]);
      }
    }
  }

  lemma InterruptKeeps(s: State, r: nat)
    requires RowsFit(s) && WithinBudgets(s)
    ensures RowsFit(InterruptMetered(s, r)) && WithinBudgets(InterruptMetered(s, r))
  {
    if r < |s.runs| && s.runs[r].role == Coordinator && s.runs[r].status == Running {
      assert RowFits(s.runs[r], |s.tasks|);
      EndKeepsBudgets(s, r, InterruptMetered(s, r).runs[r]);
    }
  }

  lemma FailRunKeeps(s: State, n: nat, j: nat, r: nat, code: string, started: bool)
    requires RowsFit(s) && WithinBudgets(s)
    ensures RowsFit(FailRun(s, n, j, r, code, started)) && WithinBudgets(FailRun(s, n, j, r, code, started))
  {
    if r < |s.runs| && s.runs[r].session == Some(n) && s.runs[r].job == Some(j) && s.runs[r].status == Running {
      assert RowFits(s.runs[r], |s.tasks|);
      EndKeepsBudgets(s, r, FailRun(s, n, j, r, code, started).runs[r]);
    }
  }

  /** What the environment and session bookkeeping do leaves runs and policies alone. */
  lemma OthersKeep(s: State, step: Step)
    requires RowsFit(s) && WithinBudgets(s)
    requires step.EditTask? || step.EditTeam? || step.OpenSession? || step.RetireSession? || step.Starts? || step.RollsOver?
    ensures RowsFit(Next(s, step)) && WithinBudgets(Next(s, step))
  {
    forall r | 0 <= r < |s.runs| ensures RowFits(s.runs[r], |Next(s, step).tasks|) {
      assert RowFits(s.runs[r], |s.tasks|);
    }
  }

  lemma StepKeepsBudgets(s: State, step: Step)
    requires RowsFit(s) && WithinBudgets(s) && Honest(s, step)
    ensures RowsFit(Next(s, step)) && WithinBudgets(Next(s, step))
  {
    match step
    case NextMonth => NextMonthKeepsBudgets(s);
    case Begins(b) => BeginKeeps(s, b);
    case Finishes(n, j, r, x, op) => FinishKeeps(s, n, j, r, x, op);
    case FailsRun(n, j, r, code, started) => FailRunKeeps(s, n, j, r, code, started);
    case StopsJob(job, expired) =>
      StopKeepsRows(s, job, StopCode(expired));
      StopKeepsBudgets(s, job, StopCode(expired));
    case BeginsMetered(t, role, job, amount, roleBudget) => BeginMeteredKeeps(s, t, role, job, amount, roleBudget);
    case Reports(r, cost) => ReportKeeps(s, r, cost);
    case FailsMetered(r, code) => FailMeteredKeeps(s, r, code);
    case InterruptsMetered(r) => InterruptKeeps(s, r);
    case _ => OthersKeep(s, step);
  }

  /**
   Under fixed policies, and if every run settles within its reservation, no Team budget, Task
   budget, Team month or account month is ever exceeded, whatever interleaves.
   */
  lemma {:induction false} BudgetsHold(states: seq<State>, steps: seq<Step>, i: nat)
    requires IsRun(states, steps) && i < |states|
    requires forall k :: 0 <= k < |steps| ==> Honest(states[k], steps[k])
    ensures RowsFit(states[i]) && WithinBudgets(states[i])
  {
    if i > 0 {
      BudgetsHold(states, steps, i - 1);
      assert Honest(states[i - 1], steps[i - 1]);
      StepKeepsBudgets(states[i - 1], steps[i - 1]);
      assert Linked(states, steps, i - 1);
    }
  }

  /** The hypothesis is needed: a run that settles above its reservation can pass the Team's budget. */
  lemma OverrunExceedsBudget()
    ensures exists s, step :: RowsFit(s) && WithinBudgets(s) && !Honest(s, step) && !WithinBudgets(Next(s, step))
  {
    var run := Run(0, Some(0), Some(0), Developer, Running, Some(1.0), None, None, None, "", 0);
    var s := State([Team(true, 1.0, 1.0, None)], [0], None, [Task(InProgress, false, false, 1)],
                   [Session(0, Busy, Some("n"))], [run], 0, {});
    var x := Receipt("n", "t", Completed, "", Some(2.0), None, None);
    var step := Finishes(0, 0, 0, x, Development);
    assert s.runs[..0] == [];
    forall scope ensures Exposed(s.runs, s.teamOf, scope) == Part(run, s.teamOf, scope) {
      assert Exposed(s.runs[..0], s.teamOf, scope) == 0.0;
    }
    var s' := Next(s, step);
    assert s'.runs[..0] == [];
    assert Exposed(s'.runs, s.teamOf, OfTeam(0)) == Part(s'.runs[0], s.teamOf, OfTeam(0)) == 2.0;
    assert RowsFit(s) && WithinBudgets(s);
  }
}
