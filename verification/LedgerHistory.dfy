/**
 Ownership and receipts over whole runs of the ledger: who runs, what a receipt may change,
 and what a late receipt does to the session it belonged to.
 */
module LedgerHistory {
  import opened Prelude
  import opened LedgerModel
  import opened LedgerBounds

  // ----------------------------------------------------------------- ownership

  predicate DeveloperRuns(r: Run) {
    r.status == Running && r.role == Developer
  }

  predicate WorkerRuns(r: Run) {
    r.status == Running && r.role != Coordinator
  }

  /** A task has at most one RUNNING Developer turn. */
  ghost predicate OneDeveloper(runs: seq<Run>) {
    forall i, j :: 0 <= i < j < |runs| && runs[i].task == runs[j].task ==> !(DeveloperRuns(runs[i]) && DeveloperRuns(runs[j]))
  }

  /** A task has at most one RUNNING run that is not the coordinator's. */
  ghost predicate OneWorker(runs: seq<Run>) {
    forall i, j :: 0 <= i < j < |runs| && runs[i].task == runs[j].task ==> !(WorkerRuns(runs[i]) && WorkerRuns(runs[j]))
  }

  /** A run's session is a session of the run's task. */
  ghost predicate SessionsLinked(runs: seq<Run>, sessions: seq<Session>) {
    forall i :: 0 <= i < |runs| && runs[i].session.Some? ==>
      runs[i].session.value < |sessions| && sessions[runs[i].session.value].task == runs[i].task
  }

  predicate Owns(r: Run, n: nat) {
    r.status == Running && r.session == Some(n)
  }

  ghost predicate Owned(runs: seq<Run>, n: nat) {
    exists i :: 0 <= i < |runs| && Owns(runs[i], n)
  }

  /** A session is RUNNING exactly while one of its runs is. */
  ghost predicate SessionsFit(runs: seq<Run>, sessions: seq<Session>) {
    forall n :: 0 <= n < |sessions| ==> (sessions[n].state == Busy <==> Owned(runs, n))
  }

  /** No turn of a task starts while the cost of an earlier turn of that task is unknown. */
  ghost predicate QuietWhileUnknown(runs: seq<Run>) {
    forall i, j :: 0 <= i < |runs| && 0 <= j < |runs| && runs[i].task == runs[j].task && Unsettled(runs[i]) ==>
      !DeveloperRuns(runs[j])
  }

  /** A Developer turn that ended with its cost unknown. */
  predicate Unsettled(r: Run) {
    r.role == Developer && r.status != Running && SettledCost(r).None?
  }

  ghost predicate Ownership(s: State) {
    && RowsFit(s)
    && OneDeveloper(s.runs)
    && SessionsLinked(s.runs, s.sessions)
    && SessionsFit(s.runs, s.sessions)
    && QuietWhileUnknown(s.runs)
  }

  /** The caller always reserves; `development_setup` never begins a turn without an allowance. */
  predicate Reserves(step: Step) {
    step.Begins? ==> step.turn.reservation.Some?
  }

  /** A receipt or report brings no negative cost. */
  predicate NonNegative(step: Step) {
    match step
    case Finishes(n, j, r, x, op) =>
      && (x.provider.Some? ==> x.provider.value >= 0.0)
      && (x.priced.Some? ==> x.priced.value >= 0.0)
      && (x.routed.Some? && x.routed.value.Some? ==> x.routed.value.value >= 0.0)
    case Reports(_, cost) => cost.Some? ==> cost.value >= 0.0
    case _ => true
  }

  // ------------------------------------------------------------ ownership lemmas

  /** An admitted turn or request begins with a well-formed row. */
  lemma AdmissionKeepsRows(s: State, step: Step)
    requires RowsFit(s) && (step.Begins? || step.BeginsMetered?)
    ensures RowsFit(Next(s, step))
  {
    var s' := Next(s, step);
    forall r | 0 <= r < |s'.runs| ensures RowFits(s'.runs[r], |s'.tasks|) {
      assert r < |s.runs| ==> RowFits(s.runs[r], |s.tasks|);
    }
  }

  lemma SettlementKeepsRows(s: State, step: Step)
    requires RowsFit(s) && NonNegative(step) && (step.Finishes? || step.FailsRun? || step.StopsJob?)
    ensures RowsFit(Next(s, step))
  {
    var s' := Next(s, step);
    forall r | 0 <= r < |s'.runs| ensures RowFits(s'.runs[r], |s'.tasks|) {
      assert RowFits(s.runs[r], |s.tasks|);
    }
  }

  lemma OthersKeepRows(s: State, step: Step)
    requires RowsFit(s) && NonNegative(step)
    requires !step.Begins? && !step.BeginsMetered? && !step.Finishes? && !step.FailsRun? && !step.StopsJob?
    ensures RowsFit(Next(s, step))
  {
    var s' := Next(s, step);
    forall r | 0 <= r < |s'.runs| ensures RowFits(s'.runs[r], |s'.tasks|) {
      assert RowFits(s.runs[r], |s.tasks|);
    }
  }

  /** The rows of every step stay well formed. */
  lemma StepKeepsRows(s: State, step: Step)
    requires RowsFit(s) && NonNegative(step)
    ensures RowsFit(Next(s, step))
  {
    if step.Begins? || step.BeginsMetered? {
      AdmissionKeepsRows(s, step);
    } else if step.Finishes? || step.FailsRun? || step.StopsJob? {
      SettlementKeepsRows(s, step);
    } else {
      OthersKeepRows(s, step);
    }
  }

  /** One run stops; its session, if it has one, is no longer RUNNING. */
  lemma RunStops(s: State, r: nat, after: Run, state: SessionState)
    requires Ownership(s) && r < |s.runs| && after.status != Running && state != Busy
    requires (after.task, after.role, after.session) == (s.runs[r].task, s.runs[r].role, s.runs[r].session)
    requires s.runs[r].role == Developer ==> SettledCost(s.runs[r]).None?
    requires RowsFit(s.(runs := s.runs[r := after]))
    ensures var s' := s.(runs := s.runs[r := after]);
            s.runs[r].session.None? ==> Ownership(s')
    ensures var s' := s.(runs := s.runs[r := after]);
            s.runs[r].session.Some? ==>
              s.runs[r].session.value < |s.sessions| &&
              Ownership(s'.(sessions := s.sessions[s.runs[r].session.value := s.sessions[s.runs[r].session.value].(state := state)]))
  {
    var runs' := s.runs[r := after];
    assert RowFits(s.runs[r], |s.tasks|);
    forall i, j | 0 <= i < |runs'| && 0 <= j < |runs'| && runs'[i].task == runs'[j].task && Unsettled(runs'[i])
      ensures !DeveloperRuns(runs'[j])
    {
      if i == r && s.runs[r].status == Running && j != r {
        assert DeveloperRuns(s.runs[r]);
      }
    }
    forall n | 0 <= n < |s.sessions| && s.runs[r].session != Some(n)
      ensures Owned(runs', n) <==> Owned(s.runs, n)
    {
      if Owned(s.runs, n) {
        var i :| 0 <= i < |s.runs| && Owns(s.runs[i], n);
        assert Owns(runs'[i], n);
      }
      if Owned(runs', n) {
        var i :| 0 <= i < |runs'| && Owns(runs'[i], n);
        assert Owns(s.runs[i], n);
      }
    }
    if s.runs[r].session.Some? {
      var n := s.runs[r].session.value;
      forall i | 0 <= i < |runs'| ensures !Owns(runs'[i], n) {
        if i != r {
          NoOtherOwner(s, r, i);
        }
      }
    }
  }

  /** No other run owns the session of a Developer turn that runs or whose cost is unknown. */
  lemma NoOtherOwner(s: State, r: nat, i: nat)
    requires Ownership(s) && r < |s.runs| && i < |s.runs| && i != r && s.runs[r].session.Some?
    requires SettledCost(s.runs[r]).None?
    ensures !Owns(s.runs[i], s.runs[r].session.value)
  {
    assert RowFits(s.runs[i], |s.tasks|) && RowFits(s.runs[r], |s.tasks|);
  }

  lemma FinishOwnership(s: State, n: nat, j: nat, r: nat, x: Receipt, op: Operation)
    requires Ownership(s) && NonNegative(Finishes(n, j, r, x, op))
    ensures Ownership(Finish(s, n, j, r, x, op))
  {
    var verdict := Judge(s, n, j, r, x);
    if verdict == Settled || verdict == InvalidRouting {
      StepKeepsRows(s, Finishes(n, j, r, x, op));
      assert RowFits(s.runs[r], |s.tasks|);
      RunStops(s, r, Receipted(s.runs[r], x), if s.runs[r].status == Running then AfterTurn(x, op) else Blocked);
    }
  }

  lemma FailRunOwnership(s: State, n: nat, j: nat, r: nat, code: string, started: bool)
    requires Ownership(s)
    ensures Ownership(FailRun(s, n, j, r, code, started))
  {
    if r < |s.runs| && s.runs[r].session == Some(n) && s.runs[r].job == Some(j) && s.runs[r].status == Running {
      StepKeepsRows(s, FailsRun(n, j, r, code, started));
      assert RowFits(s.runs[r], |s.tasks|);
      RunStops(s, r, FailRun(s, n, j, r, code, started).runs[r], Blocked);
    }
  }

  lemma MeteredOwnership(s: State, step: Step)
    requires Ownership(s) && NonNegative(step) && (step.Reports? || step.FailsMetered? || step.InterruptsMetered?)
    ensures Ownership(Next(s, step))
  {
    StepKeepsRows(s, step);
    var s', r := Next(s, step), step.run;
    if r < |s.runs| {
      assert RowFits(s.runs[r], |s.tasks|);
      var reported := s.(metered := s'.metered);
      if s'.runs[r].status != Running && s.runs[r].role != Developer {
        RunStops(reported, r, s'.runs[r], Blocked);
        assert s.runs[r := s'.runs[r]] == s'.runs;
      } else {
        assert s'.runs == s.runs;
      }
    }
  }

  /** Visiting one run while a job is stopped. */
  function StopRow(before: State, job: nat, code: string, i: nat): State {
    if i >= |before.runs| || !RunsFor(before.runs[i], job) then before
    else
      var r := before.runs[i];
      before.(runs := before.runs[i := r.(status := Interrupted, failure := code)],
              sessions := if r.session.Some? && r.session.value < |before.sessions|
                          then before.sessions[r.session.value := before.sessions[r.session.value].(state := Blocked)]
                          else before.sessions)
  }

  /** A stopped job, run by run: the first `n` rows of `StopJob`. */
  function StoppedUpTo(s: State, job: nat, code: string, n: nat): State
    requires n <= |s.runs|
    decreases n
  {
    if n == 0 then s else StopRow(StoppedUpTo(s, job, code, n - 1), job, code, n - 1)
  }

  /** One of the first `n` runs is a running run of the job, on session `m`. */
  ghost predicate Stops(runs: seq<Run>, job: nat, n: nat, m: nat)
    requires n <= |runs|
  {
    exists r :: 0 <= r < n && RunsFor(runs[r], job) && runs[r].session == Some(m)
  }

  lemma StopsMore(runs: seq<Run>, job: nat, n: nat, m: nat)
    requires 0 < n <= |runs|
    ensures Stops(runs, job, n, m) <==> Stops(runs, job, n - 1, m) || (RunsFor(runs[n - 1], job) && runs[n - 1].session == Some(m))
  {
    if Stops(runs, job, n - 1, m) {
      var r :| 0 <= r < n - 1 && RunsFor(runs[r], job) && runs[r].session == Some(m);
      assert RunsFor(runs[r], job);
    }
    if RunsFor(runs[n - 1], job) && runs[n - 1].session == Some(m) {
      assert Stops(runs, job, n, m);
    }
  }

  /** The first `n` rows are those of the stopped job, the others are as before, and so are sessions that no stopped run owns. */
  ghost predicate PartlyStopped(s: State, t: State, job: nat, code: string, n: nat)
    requires n <= |s.runs|
  {
    && t == s.(runs := t.runs, sessions := t.sessions) && |t.runs| == |s.runs| && |t.sessions| == |s.sessions|
    && (forall r :: 0 <= r < n ==> t.runs[r] == StopJob(s, job, code).runs[r])
    && (forall r :: n <= r < |s.runs| ==> t.runs[r] == s.runs[r])
    && (forall m :: 0 <= m < |s.sessions| ==>
          t.sessions[m] == if Stops(s.runs, job, n, m) then s.sessions[m].(state := Blocked) else s.sessions[m])
  }

  lemma StopOneMore(s: State, before: State, job: nat, code: string, n: nat)
    requires n < |s.runs| && PartlyStopped(s, before, job, code, n)
    ensures PartlyStopped(s, StopRow(before, job, code, n), job, code, n + 1)
  {
    var t := StopRow(before, job, code, n);
    forall m | 0 <= m < |s.sessions|
      ensures t.sessions[m] == if Stops(s.runs, job, n + 1, m) then s.sessions[m].(state := Blocked) else s.sessions[m]
    {
      StopsMore(s.runs, job, n + 1, m);
    }
  }

  /** Row by row or all at once, stopping a job leaves the same tables. */
  lemma {:induction false} StoppedRows(s: State, job: nat, code: string, n: nat)
    requires n <= |s.runs|
    ensures PartlyStopped(s, StoppedUpTo(s, job, code, n), job, code, n)
    decreases n
  {
    if n > 0 {
      StoppedRows(s, job, code, n - 1);
      StopOneMore(s, StoppedUpTo(s, job, code, n - 1), job, code, n - 1);
    }
  }

  lemma StoppedAll(s: State, job: nat, code: string)
    ensures StoppedUpTo(s, job, code, |s.runs|) == StopJob(s, job, code)
  {
    StoppedRows(s, job, code, |s.runs|);
    var s' := StoppedUpTo(s, job, code, |s.runs|);
    assert s'.runs == StopJob(s, job, code).runs;
    forall m | 0 <= m < |s.sessions| ensures s'.sessions[m] == StopJob(s, job, code).sessions[m] {
      assert Stops(s.runs, job, |s.runs|, m) <==>
        exists r :: 0 <= r < |s.runs| && RunsFor(s.runs[r], job) && s.runs[r].session == Some(m);
    }
    assert s'.sessions == StopJob(s, job, code).sessions;
  }

  lemma {:induction false} StopOwnership(s: State, job: nat, code: string, n: nat)
    requires Ownership(s) && n <= |s.runs|
    ensures Ownership(StoppedUpTo(s, job, code, n)) && |StoppedUpTo(s, job, code, n).runs| == |s.runs|
    decreases n
  {
    if n > 0 {
      StopOwnership(s, job, code, n - 1);
      var before := StoppedUpTo(s, job, code, n - 1);
      if RunsFor(before.runs[n - 1], job) {
        var r := before.runs[n - 1];
        var after := r.(status := Interrupted, failure := code);
        assert RowFits(r, |before.tasks|);
        var rows := before.runs[n - 1 := after];
        forall i | 0 <= i < |rows| ensures RowFits(rows[i], |before.tasks|) {
          assert RowFits(before.runs[i], |before.tasks|);
        }
        RunStops(before, n - 1, after, Blocked);
      }
    }
  }

  /** Admitting a turn with a reservation: no turn of the task runs, and no cost of the Team is unknown. */
  lemma BeginOwnership(s: State, b: Turn)
    requires Ownership(s) && b.reservation.Some?
    ensures Ownership(Begin(s, b))
  {
    if Admissible(s, b) {
      StepKeepsRows(s, Begins(b));
      var s' := Begin(s, b);
      var last := |s.runs|;
      forall i | 0 <= i < last && s.runs[i].task == b.task
        ensures !DeveloperRuns(s.runs[i]) && (s.runs[i].status != Running ==> SettledCost(s.runs[i]).Some?)
      {
        assert InScope(s.runs[i], s.teamOf, OfTeam(s.teamOf[b.task]));
        assert s.runs[i].status == Running ==> s.runs[i].role == Coordinator;
      }
      forall n | 0 <= n < |s'.sessions| ensures s'.sessions[n].state == Busy <==> Owned(s'.runs, n) {
        if Owned(s.runs, n) {
          var i :| 0 <= i < last && Owns(s.runs[i], n);
          assert Owns(s'.runs[i], n);
        }
        if n == b.session {
          assert Owns(s'.runs[last], n);
        } else if Owned(s'.runs, n) {
          var i :| 0 <= i < |s'.runs| && Owns(s'.runs[i], n);
          assert Owns(s.runs[i], n);
        }
      }
    }
  }

  lemma BeginMeteredOwnership(s: State, t: nat, role: Role, job: Option<nat>, amount: real, roleBudget: Option<real>)
    requires Ownership(s)
    ensures Ownership(BeginMetered(s, t, role, job, amount, roleBudget))
  {
    if role != Developer && Reserve(s, t, amount, Some(role), roleBudget).None? {
      StepKeepsRows(s, BeginsMetered(t, role, job, amount, roleBudget));
      var runs' := BeginMetered(s, t, role, job, amount, roleBudget).runs;
      forall n | 0 <= n < |s.sessions| ensures Owned(runs', n) <==> Owned(s.runs, n) {
        if Owned(s.runs, n) {
          var i :| 0 <= i < |s.runs| && Owns(s.runs[i], n);
          assert Owns(runs'[i], n);
        }
        if Owned(runs', n) {
          var i :| 0 <= i < |runs'| && Owns(runs'[i], n);
          assert Owns(s.runs[i], n);
        }
      }
    }
  }

  lemma SessionStepOwnership(s: State, step: Step)
    requires Ownership(s) && (step.OpenSession? || step.RetireSession? || step.Starts? || step.RollsOver?)
    ensures Ownership(Next(s, step))
  {
    assert !Owned(s.runs, |s.sessions|);
  }

  lemma StepKeepsOwnership(s: State, step: Step)
    requires Ownership(s) && NonNegative(step) && Reserves(step)
    ensures Ownership(Next(s, step))
  {
    match step
    case EditTask(_, _) => StepKeepsRows(s, step);
    case EditTeam(_, _) => StepKeepsRows(s, step);
    case NextMonth => StepKeepsRows(s, step);
    case OpenSession(_) => SessionStepOwnership(s, step);
    case RetireSession(_) => SessionStepOwnership(s, step);
    case Starts(_, _, _) => SessionStepOwnership(s, step);
    case RollsOver(_) => SessionStepOwnership(s, step);
    case Begins(b) => BeginOwnership(s, b);
    case BeginsMetered(t, role, job, amount, roleBudget) => BeginMeteredOwnership(s, t, role, job, amount, roleBudget);
    case Finishes(n, j, r, x, op) => FinishOwnership(s, n, j, r, x, op);
    case FailsRun(n, j, r, code, started) => FailRunOwnership(s, n, j, r, code, started);
    case StopsJob(job, expired) =>
      StopOwnership(s, job, StopCode(expired), |s.runs|);
      StoppedAll(s, job, StopCode(expired));
    case Reports(_, _) => MeteredOwnership(s, step);
    case FailsMetered(_, _) => MeteredOwnership(s, step);
    case InterruptsMetered(_) => MeteredOwnership(s, step);
  }

  /** The same runs, some of them stopped. */
  ghost predicate OnlyStops(a: seq<Run>, b: seq<Run>) {
    |a| == |b| && forall i :: 0 <= i < |a| ==>
      b[i].task == a[i].task && b[i].role == a[i].role && (b[i].status == Running ==> a[i].status == Running)
  }

  lemma SettlementOnlyStops(s: State, step: Step)
    requires step.Finishes? || step.FailsRun?
    ensures OnlyStops(s.runs, Next(s, step).runs)
  {
  }

  lemma MeteredOnlyStops(s: State, step: Step)
    requires step.Reports? || step.FailsMetered? || step.InterruptsMetered?
    ensures OnlyStops(s.runs, Next(s, step).runs)
  {
  }

  /** Only admissions start runs. */
  lemma StepOnlyStops(s: State, step: Step)
    requires !step.Begins? && !step.BeginsMetered?
    ensures OnlyStops(s.runs, Next(s, step).runs)
  {
    if step.Finishes? || step.FailsRun? {
      SettlementOnlyStops(s, step);
    } else if step.Reports? || step.FailsMetered? || step.InterruptsMetered? {
      MeteredOnlyStops(s, step);
    }
  }

  /** Reserved or not, a task never has two RUNNING Developer turns. */
  lemma {:induction false} OneDeveloperHolds(states: seq<State>, steps: seq<Step>, i: nat)
    requires IsRun(states, steps) && i < |states|
    ensures OneDeveloper(states[i].runs)
  {
    if i > 0 {
      OneDeveloperHolds(states, steps, i - 1);
      StepKeepsOneDeveloper(states[i - 1], steps[i - 1]);
      assert Linked(states, steps, i - 1);
    }
  }

  lemma StepKeepsOneDeveloper(s: State, step: Step)
    requires OneDeveloper(s.runs)
    ensures OneDeveloper(Next(s, step).runs)
  {
    if step.Begins? {
      BeginKeepsOneDeveloper(s, step.turn);
    } else if step.BeginsMetered? {
      assert step.role == Developer ==> Next(s, step) == s;
    } else {
      StepOnlyStops(s, step);
    }
  }

  lemma BeginKeepsOneDeveloper(s: State, b: Turn)
    requires OneDeveloper(s.runs)
    ensures OneDeveloper(Begin(s, b).runs)
  {
  }

  /**
   In every reachable state of a ledger whose turns are all reserved: one Developer turn per
   task at most, a session RUNNING exactly with its run, and silence while a cost is unknown.
   */
  lemma {:induction false} OwnershipHolds(states: seq<State>, steps: seq<Step>, i: nat)
    requires IsRun(states, steps) && i < |states|
    requires forall k :: 0 <= k < |steps| ==> NonNegative(steps[k]) && Reserves(steps[k])
    ensures Ownership(states[i])
  {
    if i > 0 {
      OwnershipHolds(states, steps, i - 1);
      assert NonNegative(steps[i - 1]) && Reserves(steps[i - 1]);
      StepKeepsOwnership(states[i - 1], steps[i - 1]);
      assert Linked(states, steps, i - 1);
    }
  }

  // ------------------------------------------------------ one worker, exactly when

  /**
   A supervision or interpretation is admitted beside a running turn, so a task has one worker
   after its admission exactly when it had none before.
   */
  lemma MeteredWorkerIsAlone(s: State, t: nat, role: Role, job: Option<nat>, amount: real, roleBudget: Option<real>)
    requires OneWorker(s.runs) && (role == Supervisor || role == Interpreter)
    requires Reserve(s, t, amount, Some(role), roleBudget).None?
    ensures OneWorker(BeginMetered(s, t, role, job, amount, roleBudget).runs) <==> !WorkerRunning(s, t)
  {
    var runs' := BeginMetered(s, t, role, job, amount, roleBudget).runs;
    if WorkerRunning(s, t) {
      var r :| 0 <= r < |s.runs| && s.runs[r].task == t && s.runs[r].status == Running && s.runs[r].role != Coordinator;
      assert WorkerRuns(runs'[r]) && WorkerRuns(runs'[|s.runs|]) && runs'[r].task == runs'[|s.runs|].task;
    }
  }

  /** Every other step keeps one worker per task, even a turn begun without a reservation. */
  lemma OthersKeepOneWorker(s: State, step: Step)
    requires OneWorker(s.runs)
    requires step.BeginsMetered? ==> step.role == Coordinator || step.role == Developer
    ensures OneWorker(Next(s, step).runs)
  {
    if step.Begins? {
      BeginsAlone(s, step.turn);
    } else if step.BeginsMetered? {
      assert forall i :: 0 <= i < |Next(s, step).runs| && WorkerRuns(Next(s, step).runs[i]) ==> i < |s.runs| && Next(s, step).runs[i] == s.runs[i];
    } else {
      StepOnlyStops(s, step);
    }
  }

  lemma BeginsAlone(s: State, b: Turn)
    requires OneWorker(s.runs)
    ensures OneWorker(Begin(s, b).runs)
  {
  }

  /** This step admits a supervision or interpretation while another worker of the task is RUNNING. */
  predicate JoinsWorker(s: State, step: Step) {
    step.BeginsMetered? && (step.role == Supervisor || step.role == Interpreter)
    && Reserve(s, step.task, step.amount, Some(step.role), step.roleBudget).None? && WorkerRunning(s, step.task)
  }

  lemma JoiningExactly(s: State, step: Step)
    requires OneWorker(s.runs)
    ensures OneWorker(Next(s, step).runs) <==> !JoinsWorker(s, step)
  {
    if step.BeginsMetered? && (step.role == Supervisor || step.role == Interpreter) {
      if Reserve(s, step.task, step.amount, Some(step.role), step.roleBudget).None? {
        MeteredWorkerIsAlone(s, step.task, step.role, step.under, step.amount, step.roleBudget);
      }
    } else {
      OthersKeepOneWorker(s, step);
    }
  }

  /** No step before moment `i` joined a running worker. */
  ghost predicate NoneJoined(states: seq<State>, steps: seq<Step>, i: int) {
    forall k :: 0 <= k < i && k < |steps| && k < |states| ==> !JoinsWorker(states[k], steps[k])
  }

  ghost predicate OneWorkerUntil(states: seq<State>, i: int) {
    forall k :: 0 <= k <= i && k < |states| ==> OneWorker(states[k].runs)
  }

  /**
   Over any run a task has at most one RUNNING run that is not the coordinator's, at every moment
   so far, if and only if no supervision or interpretation was admitted beside a running worker.
   */
  lemma {:induction false} OneWorkerExactly(states: seq<State>, steps: seq<Step>, i: nat)
    requires IsRun(states, steps) && i < |states|
    ensures OneWorkerUntil(states, i) <==> NoneJoined(states, steps, i)
  {
    if i > 0 {
      OneWorkerExactly(states, steps, i - 1);
      assert Linked(states, steps, i - 1);
      if OneWorker(states[i - 1].runs) {
        JoiningExactly(states[i - 1], steps[i - 1]);
      }
      assert OneWorkerUntil(states, i) <==> OneWorkerUntil(states, i - 1) && OneWorker(states[i].runs);
      assert NoneJoined(states, steps, i) <==> NoneJoined(states, steps, i - 1) && !JoinsWorker(states[i - 1], steps[i - 1]);
    }
  }

  function Fresh(): State {
    State([Team(true, 10.0, 10.0, None)], [0], None, [Task(InProgress, false, false, 1)], [Session(0, Idle, None)], [], 0, {})
  }

  const TURN_ROW := Run(0, Some(0), Some(0), Developer, Running, Some(1.0), None, None, None, "", 0)
  const WATCH_ROW := Run(0, None, None, Supervisor, Running, Some(1.0), None, None, None, "", 0)

  function Working(): State {
    Fresh().(sessions := [Session(0, Busy, None)], runs := [TURN_ROW])
  }

  function Watched(): State {
    Working().(runs := [TURN_ROW, WATCH_ROW], metered := {1})
  }

  lemma TurnIsAdmitted()
    ensures Next(Fresh(), Begins(Turn(0, 0, 0, 1, Some(1.0), true))) == Working()
  {
    var s := Fresh();
    assert Reserve(s, 0, 1.0, None, None).None?;
    assert s.sessions[0 := Session(0, Busy, None)] == [Session(0, Busy, None)];
  }

  lemma SupervisionIsAdmitted()
    ensures Reserve(Working(), 0, 1.0, Some(Supervisor), None).None?
    ensures Next(Working(), BeginsMetered(0, Supervisor, None, 1.0, None)) == Watched()
  {
    var s := Working();
    assert s.runs[..0] == [];
    assert Charged(s.runs, s.teamOf, OfTeam(0)) == 1.0;
    assert Charged(s.runs, s.teamOf, OfTask(0)) == 1.0;
    assert s.runs + [WATCH_ROW] == [TURN_ROW, WATCH_ROW];
  }

  /** A run of the ledger in which a supervision is admitted beside a running turn, so that one task has two workers. */
  lemma SupervisionJoinsTurn() returns (states: seq<State>, steps: seq<Step>)
    ensures IsRun(states, steps) && |steps| == 2 && JoinsWorker(states[1], steps[1])
    ensures OneWorker(states[1].runs) && !OneWorker(states[2].runs)
  {
    steps := [Begins(Turn(0, 0, 0, 1, Some(1.0), true)), BeginsMetered(0, Supervisor, None, 1.0, None)];
    states := [Fresh(), Working(), Watched()];
    TurnIsAdmitted();
    SupervisionIsAdmitted();
    forall i | 0 <= i < |steps| ensures Linked(states, steps, i) {
      assert i == 0 || i == 1;
    }
    assert WorkerRuns(states[1].runs[0]);
    assert WorkerRuns(states[2].runs[0]) && WorkerRuns(states[2].runs[1]);
  }

  // -------------------------------------------------------------------- receipts

  /** Once settled, a run's cost is the same at every later moment, and no receipt is taken again. */
  predicate CostEvolves(a: Run, b: Run) {
    && (a.task, a.role, a.reserved, a.session, a.job, a.month) == (b.task, b.role, b.reserved, b.session, b.job, b.month)
    && (SettledCost(a).Some? ==> SettledCost(b) == SettledCost(a))
    && (a.turn.Some? ==> b.turn == a.turn)
    && (a.status != Running ==> b.status != Running)
  }

  lemma StepKeepsCosts(s: State, step: Step, r: nat)
    requires RowsFit(s) && r < |s.runs|
    ensures r < |Next(s, step).runs| && CostEvolves(s.runs[r], Next(s, step).runs[r])
  {
    assert RowFits(s.runs[r], |s.tasks|);
  }

  lemma {:induction false} KnownCostsAreFinal(states: seq<State>, steps: seq<Step>, i: nat, j: nat, r: nat)
    requires IsRun(states, steps) && i <= j < |states| && r < |states[i].runs|
    requires forall k :: 0 <= k < |steps| ==> NonNegative(steps[k])
    ensures r < |states[j].runs| && CostEvolves(states[i].runs[r], states[j].runs[r])
    decreases j - i
  {
    if i < j {
      KnownCostsAreFinal(states, steps, i, j - 1, r);
      RowsHold(states, steps, j - 1);
      StepKeepsCosts(states[j - 1], steps[j - 1], r);
      assert Linked(states, steps, j - 1);
    }
  }

  /** A run that takes no more receipts: a receipt was taken, or it stopped and its cost is known. */
  predicate Receiptless(r: Run) {
    r.status != Running && (r.turn.Some? || SettledCost(r).Some?)
  }

  /** A receipt of a run that takes no more of them changes nothing, however late it is delivered again. */
  lemma RedeliveryChangesNothing(states: seq<State>, steps: seq<Step>, i: nat, k: nat, n: nat, j: nat, r: nat, x: Receipt, op: Operation)
    requires IsRun(states, steps) && i <= k < |states| && r < |states[i].runs| && Receiptless(states[i].runs[r])
    requires forall m :: 0 <= m < |steps| ==> NonNegative(steps[m])
    ensures Finish(states[k], n, j, r, x, op) == states[k]
  {
    KnownCostsAreFinal(states, steps, i, k, r);
  }

  /** Every receipt that is taken leaves its run so. */
  lemma TakenReceiptsEndRuns(s: State, n: nat, j: nat, r: nat, x: Receipt, op: Operation)
    requires x.status != Running && Judge(s, n, j, r, x) in {Settled, InvalidRouting}
    ensures Receiptless(Finish(s, n, j, r, x, op).runs[r])
  {
  }

  lemma {:induction false} RowsHold(states: seq<State>, steps: seq<Step>, i: nat)
    requires IsRun(states, steps) && i < |states|
    requires forall k :: 0 <= k < |steps| ==> NonNegative(steps[k])
    ensures RowsFit(states[i])
  {
    if i > 0 {
      RowsHold(states, steps, i - 1);
      assert NonNegative(steps[i - 1]);
      StepKeepsRows(states[i - 1], steps[i - 1]);
      assert Linked(states, steps, i - 1);
    }
  }

  /** A receipt that raced orphan recovery settles the cost, and only that: no work is revived. */
  lemma LateReceiptOnlySettles(s: State, n: nat, j: nat, r: nat, x: Receipt, op: Operation)
    requires Judge(s, n, j, r, x) == Settled && AwaitsLateReceipt(s.runs[r])
    ensures var s' := Finish(s, n, j, r, x, op);
      && s'.sessions == s.sessions[n := s.sessions[n].(state := Blocked)]
      && s'.tasks == s.tasks && |s'.runs| == |s.runs| && s'.metered == s.metered
      && (forall i :: 0 <= i < |s.runs| && i != r ==> s'.runs[i] == s.runs[i])
      && s'.runs[r].turn == Some(x.turn) && s'.runs[r].status != Running
      && SettledCost(s'.runs[r]) == (if x.routed.Some? then x.routed.value
                                     else if x.provider.Some? then x.provider else x.priced)
  {
  }

  /**
   Without reservations the coupling of sessions and runs can break: a late receipt keeps it
   exactly when no newer turn runs on the session.
   */
  lemma LateReceiptKeepsCoupling(s: State, n: nat, j: nat, r: nat, x: Receipt, op: Operation)
    requires Judge(s, n, j, r, x) == Settled && AwaitsLateReceipt(s.runs[r])
    requires SessionsFit(s.runs, s.sessions)
    ensures var s' := Finish(s, n, j, r, x, op);
            SessionsFit(s'.runs, s'.sessions) <==> s.sessions[n].state != Busy
  {
    var s' := Finish(s, n, j, r, x, op);
    forall m | 0 <= m < |s.sessions| ensures Owned(s'.runs, m) <==> Owned(s.runs, m) {
      if Owned(s.runs, m) {
        var i :| 0 <= i < |s.runs| && Owns(s.runs[i], m);
        assert Owns(s'.runs[i], m);
      }
      if Owned(s'.runs, m) {
        var i :| 0 <= i < |s'.runs| && Owns(s'.runs[i], m);
        assert Owns(s.runs[i], m);
      }
    }
    if s.sessions[n].state == Busy {
      assert s'.sessions[n].state == Blocked && Owned(s'.runs, n);
    }
  }

  /** A turn begun without a reservation is admitted while a late receipt is still awaited on its own session. */
  lemma UnreservedTurnOvertakesReceipt(s: State, n: nat, r: nat, b: Turn)
    requires Ownership(s) && r < |s.runs| && AwaitsLateReceipt(s.runs[r]) && s.runs[r].session == Some(n)
    requires b.session == n && b.leased && b.task == s.runs[r].task && b.reservation.None?
    requires b.task < |s.tasks| && s.tasks[b.task].status == InProgress && !s.tasks[b.task].takeover
    requires s.tasks[b.task].requirement == b.requirement && s.sessions[n].state != Retired && !WorkerRunning(s, b.task)
    ensures Begin(s, b).sessions[n].state == Busy && AwaitsLateReceipt(Begin(s, b).runs[r])
  {
    assert s.sessions[n].state != Busy by {
      if s.sessions[n].state == Busy {
        BusySessionWorks(s, n);
        assert false;
      }
    }
  }

  lemma BusySessionWorks(s: State, n: nat)
    requires Ownership(s) && n < |s.sessions| && s.sessions[n].state == Busy
    ensures WorkerRunning(s, s.sessions[n].task)
  {
    var i :| 0 <= i < |s.runs| && Owns(s.runs[i], n);
    assert RowFits(s.runs[i], |s.tasks|);
  }

  // ---------------------------------------------- a late receipt that breaks the coupling

  const UNRESERVED := Turn(0, 1, 0, 1, None, true)
  const SECOND_ROW := Run(0, Some(0), Some(1), Developer, Running, None, None, None, None, "", 0)
  const LATE := Receipt("n", "t", Completed, "", Some(1.0), None, None)

  /** The ledger with its one session, and its runs. */
  function Ledger(session: SessionState, native: Option<string>, runs: seq<Run>): State {
    Fresh().(sessions := [Session(0, session, native)], runs := runs)
  }

  function StoppedRow(): Run {
    TURN_ROW.(status := Interrupted, failure := "ORPHAN_STOPPED")
  }

  function SettledRow(): Run {
    StoppedRow().(turn := Some("t"), failure := "", status := Completed, provider := Some(1.0))
  }

  lemma SessionStarts()
    ensures Next(Working(), Starts(0, "n", true)) == Ledger(Busy, Some("n"), [TURN_ROW])
  {
    assert [Session(0, Busy, None)][0 := Session(0, Busy, Some("n"))] == [Session(0, Busy, Some("n"))];
  }

  lemma JobStops()
    ensures Next(Ledger(Busy, Some("n"), [TURN_ROW]), StopsJob(0, false)) == Ledger(Blocked, Some("n"), [StoppedRow()])
  {
    var s := Ledger(Busy, Some("n"), [TURN_ROW]);
    assert RunsFor(s.runs[0], 0) && s.runs[0].session == Some(0);
    assert StopJob(s, 0, "ORPHAN_STOPPED").runs == [StoppedRow()];
    assert StopJob(s, 0, "ORPHAN_STOPPED").sessions == [Session(0, Blocked, Some("n"))];
  }

  lemma SecondTurnBegins()
    ensures Next(Ledger(Blocked, Some("n"), [StoppedRow()]), Begins(UNRESERVED))
         == Ledger(Busy, Some("n"), [StoppedRow(), SECOND_ROW])
  {
    var s := Ledger(Blocked, Some("n"), [StoppedRow()]);
    assert !WorkerRunning(s, 0);
    assert [StoppedRow()] + [SECOND_ROW] == [StoppedRow(), SECOND_ROW];
    assert s.sessions[0 := Session(0, Busy, Some("n"))] == [Session(0, Busy, Some("n"))];
  }

  lemma LateReceiptArrives()
    ensures Next(Ledger(Busy, Some("n"), [StoppedRow(), SECOND_ROW]), Finishes(0, 0, 0, LATE, Development))
         == Ledger(Blocked, Some("n"), [SettledRow(), SECOND_ROW])
  {
    var s := Ledger(Busy, Some("n"), [StoppedRow(), SECOND_ROW]);
    assert Judge(s, 0, 0, 0, LATE) == Settled;
    assert s.runs[0 := SettledRow()] == [SettledRow(), SECOND_ROW];
    assert s.sessions[0 := Session(0, Blocked, Some("n"))] == [Session(0, Blocked, Some("n"))];
  }

  /** A run of the ledger in which a late receipt blocks the session of a newer, unreserved turn that is still RUNNING. */
  lemma LateReceiptBlocksNewerTurn() returns (states: seq<State>, steps: seq<Step>)
    ensures IsRun(states, steps) && |steps| == 5
    ensures SessionsFit(states[4].runs, states[4].sessions) && !SessionsFit(states[5].runs, states[5].sessions)
  {
    steps := [Begins(Turn(0, 0, 0, 1, Some(1.0), true)), Starts(0, "n", true), StopsJob(0, false),
              Begins(UNRESERVED), Finishes(0, 0, 0, LATE, Development)];
    states := [Fresh(), Working(), Ledger(Busy, Some("n"), [TURN_ROW]), Ledger(Blocked, Some("n"), [StoppedRow()]),
               Ledger(Busy, Some("n"), [StoppedRow(), SECOND_ROW]), Ledger(Blocked, Some("n"), [SettledRow(), SECOND_ROW])];
    TurnIsAdmitted();
    SessionStarts();
    JobStops();
    SecondTurnBegins();
    LateReceiptArrives();
    forall i | 0 <= i < |steps| ensures Linked(states, steps, i) {
      assert i == 0 || i == 1 || i == 2 || i == 3 || i == 4;
    }
    assert Owns(states[4].runs[1], 0) && Owns(states[5].runs[1], 0);
  }

  // ------------------------------------------------------------ native sessions

  /** A named native session changes only by a rollover of its session, which clears it. */
  lemma NativeSessionIsKept(s: State, step: Step, n: nat)
    requires n < |s.sessions| && s.sessions[n].native.Some? && s.sessions[n].native.value != ""
    ensures n < |Next(s, step).sessions|
    ensures Next(s, step).sessions[n].native == s.sessions[n].native || Next(s, step).sessions[n].native.None?
    ensures Next(s, step).sessions[n].native.None? <==>
      step == RollsOver(n) && s.sessions[n].state !in {Busy, Retired} && !UnsettledTask(s, s.sessions[n].task)
  {
  }

  /** A rollover loses no receipt: no run of the session could have been settled by one any more. */
  lemma RolloverStrandsNoReceipt(s: State, n: nat, j: nat, r: nat, x: Receipt)
    requires SessionsLinked(s.runs, s.sessions) && Rollover(s, n) != s
    ensures Judge(s, n, j, r, x) in {AlreadySettled, AlreadyFinished, NotOurs}
    ensures Judge(Rollover(s, n), n, j, r, x) == Judge(s, n, j, r, x)
  {
    if r < |s.runs| && s.runs[r].session == Some(n) {
      assert s.runs[r].task == s.sessions[n].task;
      assert s.runs[r].status != Running && SettledCost(s.runs[r]).Some?;
    }
  }
}
