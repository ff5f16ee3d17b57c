/**
 The ledger's repositories: sums computed row by row, and transactions that update the tables
 in place. Each method leaves exactly the state of its specification in LedgerModel.
 */
module LedgerStore {
  import opened Prelude
  import opened LedgerModel
  import Model = LedgerModel
  import History = LedgerHistory

  /** One running container: the job in its name, whether that job is ours, and whether its lease still protects it. */
  datatype Container = Container(job: nat, ours: bool, protected: bool)

  /** What a sweep over a list of containers comes to. */
  function Swept(s: State, containers: seq<Container>): State {
    if containers == [] then s
    else
      var before := Swept(s, containers[..|containers| - 1]);
      var c := containers[|containers| - 1];
      if !c.ours || c.protected then before else StopJob(before, c.job, StopCode(false))
  }

  lemma Extended(runs: seq<Run>, i: nat, teamOf: seq<nat>, scope: Scope)
    requires i < |runs|
    ensures Charged(runs[..i + 1], teamOf, scope) == Charged(runs[..i], teamOf, scope) + Charge(runs[i], teamOf, scope)
    ensures Unknown(runs[..i + 1], teamOf, scope)
       <==> Unknown(runs[..i], teamOf, scope) || (InScope(runs[i], teamOf, scope) && BudgetCost(runs[i]).None?)
  {
    assert runs[..i + 1][..i] == runs[..i];
    if Unknown(runs[..i], teamOf, scope) {
      var k :| 0 <= k < i && InScope(runs[..i][k], teamOf, scope) && BudgetCost(runs[..i][k]).None?;
      assert InScope(runs[..i + 1][k], teamOf, scope);
    }
    if InScope(runs[i], teamOf, scope) && BudgetCost(runs[i]).None? {
      assert InScope(runs[..i + 1][i], teamOf, scope);
    }
  }

  class Store {
    var teams: seq<Team>
    var teamOf: seq<nat>
    var account: Option<real>
    var tasks: seq<Task>
    var sessions: seq<Session>
    var runs: seq<Run>
    var month: int
    ghost var metered: set<nat>

    ghost function View(): State
      reads this
    {
      State(teams, teamOf, account, tasks, sessions, runs, month, metered)
    }

    constructor (teams: seq<Team>, teamOf: seq<nat>, account: Option<real>, tasks: seq<Task>, sessions: seq<Session>, month: int)
      ensures View() == State(teams, teamOf, account, tasks, sessions, [], month, {})
    {
      this.teams, this.teamOf, this.account, this.tasks := teams, teamOf, account, tasks;
      this.sessions, this.month, runs, metered := sessions, month, [], {};
    }

    // -------------------------------------------------------------- reservations

    /** `budget_usage`: one pass that sums the Team, the task and the role, and notices unknown costs. */
    method BudgetUsage(t: nat, role: Option<Role>) returns (team: real, task: real, ofRole: real, unknown: bool)
      requires t < |teamOf|
      ensures team == Charged(runs, teamOf, OfTeam(teamOf[t]))
      ensures unknown == Unknown(runs, teamOf, OfTeam(teamOf[t]))
      ensures task == Charged(runs, teamOf, OfTask(t))
      ensures ofRole == if role.Some? then Charged(runs, teamOf, OfRole(t, role.value)) else 0.0
    {
      team, task, ofRole, unknown := 0.0, 0.0, 0.0, false;
      var i := 0;
      while i < |runs|
        invariant 0 <= i <= |runs|
        invariant team == Charged(runs[..i], teamOf, OfTeam(teamOf[t]))
        invariant unknown == Unknown(runs[..i], teamOf, OfTeam(teamOf[t]))
        invariant task == Charged(runs[..i], teamOf, OfTask(t))
        invariant ofRole == if role.Some? then Charged(runs[..i], teamOf, OfRole(t, role.value)) else 0.0
      {
        var r := runs[i];
        Extended(runs, i, teamOf, OfTeam(teamOf[t]));
        Extended(runs, i, teamOf, OfTask(t));
        if role.Some? {
          Extended(runs, i, teamOf, OfRole(t, role.value));
        }
        if r.task < |teamOf| && teamOf[r.task] == teamOf[t] {
          var cost := BudgetCost(r);
          if cost.None? {
            unknown := true;
          } else {
            team := team + cost.value;
            if r.task == t {
              task := task + cost.value;
              if role == Some(r.role) {
                ofRole := ofRole + cost.value;
              }
            }
          }
        }
        i := i + 1;
      }
      assert runs[..i] == runs;
    }

    /** `periodic_usage` of the account, or of one Team. */
    method PeriodicUsage(team: Option<nat>) returns (amount: real, unknown: bool)
      ensures var scope := if team.Some? then OfTeamMonth(team.value, month) else OfAccountMonth(month);
              amount == Charged(runs, teamOf, scope) && unknown == Unknown(runs, teamOf, scope)
    {
      ghost var scope := if team.Some? then OfTeamMonth(team.value, month) else OfAccountMonth(month);
      amount, unknown := 0.0, false;
      var i := 0;
      while i < |runs|
        invariant 0 <= i <= |runs|
        invariant amount == Charged(runs[..i], teamOf, scope)
        invariant unknown == Unknown(runs[..i], teamOf, scope)
      {
        var r := runs[i];
        var cost := BudgetCost(r);
        Extended(runs, i, teamOf, scope);
        if (r.month >= month || r.status == Running || cost.None?)
           && (team.None? || (r.task < |teamOf| && teamOf[r.task] == team.value)) {
          if cost.None? {
            unknown := true;
          } else {
            amount := amount + cost.value;
          }
        }
        i := i + 1;
      }
      assert runs[..i] == runs;
    }

    /** The monthly limits of the account and of the Team, in that order. */
    method PeriodRefusal(g: nat, amount: real) returns (refusal: Option<Refusal>)
      requires g < |teams|
      ensures refusal == Model.PeriodRefusal(View(), g, amount)
    {
      if account.Some? {
        var total, unknown := PeriodicUsage(None);
        if unknown || total + amount > account.value {
          return Some(AccountExhausted);
        }
      }
      if teams[g].monthly.Some? {
        var total, unknown := PeriodicUsage(Some(g));
        if unknown || total + amount > teams[g].monthly.value {
          return Some(MonthExhausted);
        }
      }
      return None;
    }

    /** `reserve_budget`. The caller adds the reservation in the same transaction. */
    method ReserveBudget(t: nat, amount: real, role: Option<Role>, roleBudget: Option<real>) returns (refusal: Option<Refusal>)
      ensures refusal == Model.Reserve(View(), t, amount, role, roleBudget)
    {
      if t >= |tasks| || t >= |teamOf| || amount <= 0.0 {
        return Some(NoReservation);
      }
      var task := tasks[t];
      if teamOf[t] >= |teams| || !teams[teamOf[t]].ready || task.archived || task.takeover
         || (task.status !in {New, InProgress, WaitingExternal} && role != Some(Coordinator)) {
        return Some(SuspendedWork);
      }
      var g := teamOf[t];
      refusal := PeriodRefusal(g, amount);
      if refusal.Some? {
        return;
      }
      var teamTotal, taskTotal, roleTotal, unknown := BudgetUsage(t, role);
      if unknown {
        return Some(UnknownCost);
      }
      if teamTotal + amount > teams[g].teamBudget || taskTotal + amount > teams[g].taskBudget {
        return Some(BudgetExhausted);
      }
      if roleBudget.Some? && (role.None? || roleTotal + amount > roleBudget.value) {
        return Some(RoleExhausted);
      }
      return None;
    }

    /** `development_allowance`. */
    method DevelopmentAllowance(t: nat, hardLimit: real, minimum: real) returns (result: Result<real, Refusal>)
      ensures result == Model.Allowance(View(), t, hardLimit, minimum)
    {
      if t >= |tasks| || t >= |teamOf| || teamOf[t] >= |teams| {
        return Err(NoReservation);
      }
      var policy := teams[teamOf[t]];
      var teamTotal, taskTotal, _, unknown := BudgetUsage(t, None);
      if unknown {
        return Err(UnknownCost);
      }
      var remaining := hardLimit - taskTotal;
      if policy.taskBudget - taskTotal < remaining {
        remaining := policy.taskBudget - taskTotal;
      }
      if policy.teamBudget - teamTotal < remaining {
        remaining := policy.teamBudget - teamTotal;
      }
      if remaining <= 0.0 || remaining < minimum {
        return Err(BudgetExhausted);
      }
      return Ok(remaining);
    }

    // ---------------------------------------------------------------- accounting

    method AnotherWorker(t: nat) returns (found: bool)
      ensures found == WorkerRunning(View(), t)
    {
      var i := 0;
      while i < |runs|
        invariant 0 <= i <= |runs|
        invariant forall r :: 0 <= r < i ==> !(runs[r].task == t && runs[r].status == Running && runs[r].role != Coordinator)
      {
        if runs[i].task == t && runs[i].status == Running && runs[i].role != Coordinator {
          return true;
        }
        i := i + 1;
      }
      return false;
    }

    /** `begin_run`: the admitted turn's row, or nothing. */
    method BeginRun(b: Turn) returns (row: Option<nat>)
      modifies this
      ensures View() == Model.Begin(old(View()), b)
      ensures row == if Admissible(old(View()), b) then Some(|old(runs)|) else None
    {
      if !b.leased || b.task >= |tasks| || b.session >= |sessions| || sessions[b.session].task != b.task
         || sessions[b.session].state == Retired || tasks[b.task].status != InProgress || tasks[b.task].takeover {
        return None;
      }
      if b.reservation.Some? {
        var refusal := ReserveBudget(b.task, b.reservation.value, None, None);
        if refusal.Some? {
          return None;
        }
      }
      if tasks[b.task].requirement != b.requirement || sessions[b.session].state == Busy {
        return None;
      }
      var taken := AnotherWorker(b.task);
      if taken {
        return None;
      }
      sessions := sessions[b.session := sessions[b.session].(state := Busy)];
      runs := runs + [Run(b.task, Some(b.session), Some(b.job), Developer, Running, b.reservation, None, None, None, "", month)];
      return Some(|runs| - 1);
    }

    /** `finish_run`, for the worker of session `n` and job `j`. */
    method FinishRun(n: nat, j: nat, r: nat, x: Receipt, op: Operation) returns (verdict: Settlement)
      modifies this`runs, this`sessions
      ensures verdict == Model.Judge(old(View()), n, j, r, x)
      ensures View() == Model.Finish(old(View()), n, j, r, x, op)
    {
      if r >= |runs| || runs[r].session != Some(n) || runs[r].job != Some(j) || n >= |sessions| {
        return NotOurs;
      }
      var row := runs[r];
      var late := AwaitsLateReceipt(row);
      if row.status != Running && !late {
        return if row.turn == Some(x.turn) then AlreadySettled else AlreadyFinished;
      }
      if x.status == Running || sessions[n].native != Some(x.native) {
        return WrongSession;
      }
      row := row.(turn := Some(x.turn), failure := x.failure, status := x.status, provider := x.provider);
      if x.priced.Some? {
        row := row.(calculated := x.priced);
      }
      var completed := x.status == Completed;
      verdict := Settled;
      if x.routed.Some? {
        row := row.(calculated := x.routed.value, provider := None);
        if row.calculated.None? && completed {
          verdict, completed := InvalidRouting, false;
          row := row.(status := Failed, failure := "INVALID_ROUTED_USAGE");
        }
      }
      runs := runs[r := row];
      if late {
        sessions := sessions[n := sessions[n].(state := Blocked)];
        return;
      }
      var state := if completed then Ready else Blocked;
      if op.Continuity? && !(completed && op.acknowledged) {
        state := Blocked;
      }
      sessions := sessions[n := sessions[n].(state := state)];
    }

    /** `fail_run`. */
    method FailRun(n: nat, j: nat, r: nat, code: string, started: bool)
      modifies this`runs, this`sessions
      ensures View() == Model.FailRun(old(View()), n, j, r, code, started)
    {
      if r >= |runs| || runs[r].session != Some(n) || runs[r].job != Some(j) || runs[r].status != Running {
        return;
      }
      var row := runs[r].(status := Failed, failure := code);
      if !started {
        row := row.(calculated := Some(0.0));
      }
      runs := runs[r := row];
      if n < |sessions| {
        sessions := sessions[n := sessions[n].(state := Blocked)];
      }
    }

    /** `session_started`: true when the native session is now the stored one. */
    method SessionStarted(n: nat, native: string, runnable: bool) returns (kept: bool)
      modifies this`sessions
      ensures View() == Model.StartSession(old(View()), n, native, runnable)
      ensures kept <==> runnable && n < |sessions| && sessions[n].native == Some(native)
    {
      if !runnable || n >= |sessions| {
        return false;
      }
      var stored := sessions[n].native;
      if stored.Some? && stored.value != "" && stored.value != native {
        return false;
      }
      sessions := sessions[n := sessions[n].(native := Some(native))];
      return true;
    }

    // ------------------------------------------------------------------- orphans

    /** `rollover`, without the workspace checkpoint that it seals. */
    method Rollover(n: nat) returns (sealed: bool)
      modifies this`sessions
      ensures View() == Model.Rollover(old(View()), n)
      ensures sealed <==> n < |sessions| && sessions[n] != old(sessions)[n]
    {
      if n >= |sessions| || sessions[n].state in {Busy, Retired} {
        return false;
      }
      if exists r :: 0 <= r < |runs| && runs[r].task == sessions[n].task && (runs[r].status == Running || SettledCost(runs[r]).None?) {
        return false;
      }
      if sessions[n].native.None? || sessions[n].native.value == "" {
        return false;
      }
      sessions := sessions[n := sessions[n].(native := None)];
      sessions := sessions[n := sessions[n].(state := Idle)];
      return true;
    }

    /** Closing the reservations of a stopped job, run by run. */
    method StopRuns(job: nat, code: string)
      modifies this`runs, this`sessions
      ensures View() == StopJob(old(View()), job, code)
    {
      ghost var before := View();
      var i := 0;
      while i < |runs|
        invariant 0 <= i <= |runs| == |before.runs|
        invariant View() == History.StoppedUpTo(before, job, code, i)
      {
        if runs[i].job == Some(job) && runs[i].status == Running {
          var session := runs[i].session;
          runs := runs[i := runs[i].(status := Interrupted, failure := code)];
          if session.Some? && session.value < |sessions| {
            sessions := sessions[session.value := sessions[session.value].(state := Blocked)];
          }
        }
        i := i + 1;
      }
      History.StoppedAll(before, job, code);
    }

    /** `sweep`: each unprotected container of ours is stopped, and its job's runs are closed. */
    method Sweep(containers: seq<Container>)
      modifies this`runs, this`sessions
      ensures View() == Swept(old(View()), containers)
    {
      var i := 0;
      while i < |containers|
        invariant 0 <= i <= |containers|
        invariant View() == Swept(old(View()), containers[..i])
      {
        assert containers[..i + 1][..i] == containers[..i];
        if containers[i].ours && !containers[i].protected {
          StopRuns(containers[i].job, "ORPHAN_STOPPED");
        }
        i := i + 1;
      }
      assert containers[..i] == containers;
    }
  }

  // ---------------------------------------------------------- what a sweep leaves

  lemma StopLeaves(s: State, job: nat, code: string, r: nat)
    requires r < |s.runs|
    ensures |StopJob(s, job, code).runs| == |s.runs|
    ensures var row := StopJob(s, job, code).runs[r];
      && (row.provider, row.calculated, row.reserved, row.turn, row.job) == (s.runs[r].provider, s.runs[r].calculated, s.runs[r].reserved, s.runs[r].turn, s.runs[r].job)
      && (s.runs[r].status != Running || s.runs[r].job != Some(job) ==> row == s.runs[r])
      && (s.runs[r].status == Running && s.runs[r].job == Some(job) ==> row.status == Interrupted && row.failure == code)
  {
  }

  predicate SweptJob(containers: seq<Container>, job: Option<nat>) {
    exists c :: c in containers && c.ours && !c.protected && job == Some(c.job)
  }

  /**
   A sweep interrupts exactly the running runs of the jobs whose containers it stopped, and
   leaves each of them to a late receipt; every other run is as it was.
   */
  lemma {:induction false} SweepInterruptsExactly(s: State, containers: seq<Container>, r: nat)
    requires r < |s.runs|
    requires forall i :: 0 <= i < |s.runs| ==> (s.runs[i].status == Running ==>
               s.runs[i].turn.None? && s.runs[i].provider.None? && s.runs[i].calculated.None?)
    ensures |Swept(s, containers).runs| == |s.runs|
    ensures s.runs[r].status == Running && SweptJob(containers, s.runs[r].job) ==>
      Swept(s, containers).runs[r] == s.runs[r].(status := Interrupted, failure := "ORPHAN_STOPPED")
      && AwaitsLateReceipt(Swept(s, containers).runs[r])
    ensures !(s.runs[r].status == Running && SweptJob(containers, s.runs[r].job)) ==> Swept(s, containers).runs[r] == s.runs[r]
  {
    if containers != [] {
      var front, c := containers[..|containers| - 1], containers[|containers| - 1];
      SweepInterruptsExactly(s, front, r);
      assert SweptJob(containers, s.runs[r].job)
        <==> SweptJob(front, s.runs[r].job) || (c.ours && !c.protected && s.runs[r].job == Some(c.job)) by {
        assert forall d :: d in containers <==> d in front || d == c;
      }
      if c.ours && !c.protected {
        StopLeaves(Swept(s, front), c.job, "ORPHAN_STOPPED", r);
      }
    }
  }
}
