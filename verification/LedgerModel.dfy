/**
 The spending ledger: Team and Task budgets, paid runs, native sessions, and the
 transactions that admit, settle, interrupt and reconcile them. Tables are sequences whose
 index is the primary key. Amounts are exact reals.
 */
module LedgerModel {
  import opened Prelude

  /** `ready`: enabled, not paused, not archived. Budgets are the Team's fixed policy. */
  datatype Team = Team(ready: bool, teamBudget: real, taskBudget: real, monthly: Option<real>)

  datatype TaskStatus = New | InProgress | WaitingHuman | WaitingExternal | Suspended | Closed

  datatype Task = Task(status: TaskStatus, archived: bool, takeover: bool, requirement: nat)

  datatype SessionState = Idle | Busy | Ready | Blocked | Retired

  datatype Session = Session(task: nat, state: SessionState, native: Option<string>)

  datatype Role = Developer | Coordinator | Supervisor | Interpreter

  datatype RunStatus = Running | Completed | Failed | Interrupted

  datatype Run = Run(
    task: nat, session: Option<nat>, job: Option<nat>, role: Role, status: RunStatus,
    reserved: Option<real>, provider: Option<real>, calculated: Option<real>,
    turn: Option<string>, failure: string, month: int)

  /** `teamOf` is the Team of each task; `metered` holds the workers that have not yet reported their request. */
  datatype State = State(
    teams: seq<Team>, teamOf: seq<nat>, account: Option<real>, tasks: seq<Task>,
    sessions: seq<Session>, runs: seq<Run>, month: int, metered: set<nat>)

  // ------------------------------------------------------------ cost expressions

  /** coalesce(provider cost, calculated cost): what a settled run cost, if known. */
  function SettledCost(r: Run): Option<real> {
    if r.provider.Some? then r.provider else r.calculated
  }

  /** What admission charges for a run: its reservation while it runs, then its settled cost. */
  function BudgetCost(r: Run): Option<real> {
    if r.status == Running then r.reserved else SettledCost(r)
  }

  function Reserved(r: Run): real {
    if r.reserved.Some? then r.reserved.value else 0.0
  }

  /** The settled cost if it is known, else the reservation. */
  function Exposure(r: Run): real {
    if r.status != Running && SettledCost(r).Some? then SettledCost(r).value else Reserved(r)
  }

  datatype Scope = OfTeam(team: nat) | OfTask(task: nat) | OfRole(task: nat, role: Role) | OfTeamMonth(team: nat, month: int) | OfAccountMonth(month: int)

  /** A run counts in a period if it started in it, is still running, or has no known cost. */
  predicate InPeriod(r: Run, month: int) {
    r.month >= month || r.status == Running || BudgetCost(r).None?
  }

  predicate InScope(r: Run, teamOf: seq<nat>, scope: Scope) {
    match scope
    case OfTeam(g) => r.task < |teamOf| && teamOf[r.task] == g
    case OfTask(t) => r.task == t
    case OfRole(t, role) => r.task == t && r.role == role
    case OfTeamMonth(g, m) => r.task < |teamOf| && teamOf[r.task] == g && InPeriod(r, m)
    case OfAccountMonth(m) => InPeriod(r, m)
  }

  function Charge(r: Run, teamOf: seq<nat>, scope: Scope): real {
    if InScope(r, teamOf, scope) && BudgetCost(r).Some? then BudgetCost(r).value else 0.0
  }

  /** SUM of the budget cost over a scope; unknown costs count as nothing, as SQL sums do. */
  function Charged(runs: seq<Run>, teamOf: seq<nat>, scope: Scope): real {
    if runs == [] then 0.0
    else Charged(runs[..|runs| - 1], teamOf, scope) + Charge(runs[|runs| - 1], teamOf, scope)
  }

  /** Some run of the scope has no known budget cost. */
  predicate Unknown(runs: seq<Run>, teamOf: seq<nat>, scope: Scope) {
    exists i :: 0 <= i < |runs| && InScope(runs[i], teamOf, scope) && BudgetCost(runs[i]).None?
  }

  // ------------------------------------------------------------------- admission

  datatype Refusal =
    | NoReservation | SuspendedWork | UnknownCost | AccountExhausted | MonthExhausted
    | BudgetExhausted | RoleExhausted

  predicate Spendable(s: State, t: nat, role: Option<Role>) {
    t < |s.tasks| && t < |s.teamOf| && s.teamOf[t] < |s.teams|
    && s.teams[s.teamOf[t]].ready && !s.tasks[t].archived && !s.tasks[t].takeover
    && (s.tasks[t].status in {New, InProgress, WaitingExternal} || role == Some(Coordinator))
  }

  /** The monthly limits of the account and of the Team, in that order. */
  function PeriodRefusal(s: State, g: nat, amount: real): Option<Refusal>
    requires g < |s.teams|
  {
    if s.account.Some? && (Unknown(s.runs, s.teamOf, OfAccountMonth(s.month))
         || Charged(s.runs, s.teamOf, OfAccountMonth(s.month)) + amount > s.account.value) then Some(AccountExhausted)
    else if s.teams[g].monthly.Some? && (Unknown(s.runs, s.teamOf, OfTeamMonth(g, s.month))
         || Charged(s.runs, s.teamOf, OfTeamMonth(g, s.month)) + amount > s.teams[g].monthly.value) then Some(MonthExhausted)
    else None
  }

  /** `reserve_budget`: the checks in the order in which they raise. */
  function Reserve(s: State, t: nat, amount: real, role: Option<Role>, roleBudget: Option<real>): Option<Refusal> {
    if t >= |s.tasks| || t >= |s.teamOf| || amount <= 0.0 then Some(NoReservation)
    else if !Spendable(s, t, role) then Some(SuspendedWork)
    else
      var g := s.teamOf[t];
      var team := s.teams[g];
      if PeriodRefusal(s, g, amount).Some? then PeriodRefusal(s, g, amount)
      else if Unknown(s.runs, s.teamOf, OfTeam(g)) then Some(UnknownCost)
      else if Charged(s.runs, s.teamOf, OfTeam(g)) + amount > team.teamBudget
           || Charged(s.runs, s.teamOf, OfTask(t)) + amount > team.taskBudget then Some(BudgetExhausted)
      else if roleBudget.Some? && (role.None? || Charged(s.runs, s.teamOf, OfRole(t, role.value)) + amount > roleBudget.value)
      then Some(RoleExhausted)
      else None
  }

  function Min(a: real, b: real): real {
    if a <= b then a else b
  }

  /** `development_allowance`: what one turn may plan to spend. */
  function Allowance(s: State, t: nat, hardLimit: real, minimum: real): Result<real, Refusal> {
    if t >= |s.tasks| || t >= |s.teamOf| || s.teamOf[t] >= |s.teams| then Err(NoReservation)
    else if Unknown(s.runs, s.teamOf, OfTeam(s.teamOf[t])) then Err(UnknownCost)
    else
      var team := s.teams[s.teamOf[t]];
      var spent := Charged(s.runs, s.teamOf, OfTask(t));
      var remaining := Min(Min(hardLimit - spent, team.taskBudget - spent),
                           team.teamBudget - Charged(s.runs, s.teamOf, OfTeam(s.teamOf[t])));
      if remaining <= 0.0 || remaining < minimum then Err(BudgetExhausted) else Ok(remaining)
  }

  /** One turn: `leased` says whether the worker's job lease still allows it. */
  datatype Turn = Turn(session: nat, job: nat, task: nat, requirement: nat, reservation: Option<real>, leased: bool)

  predicate Admissible(s: State, b: Turn) {
    b.leased && b.task < |s.tasks| && b.session < |s.sessions|
    && s.sessions[b.session].task == b.task && s.sessions[b.session].state != Retired
    && s.tasks[b.task].status == InProgress && !s.tasks[b.task].takeover
    && (b.reservation.Some? ==> Reserve(s, b.task, b.reservation.value, None, None).None?)
    && s.tasks[b.task].requirement == b.requirement
    && s.sessions[b.session].state != Busy
    && !WorkerRunning(s, b.task)
  }

  /** A run of the task that is not the coordinator's is RUNNING. */
  predicate WorkerRunning(s: State, t: nat) {
    exists r :: 0 <= r < |s.runs| && s.runs[r].task == t && s.runs[r].status == Running && s.runs[r].role != Coordinator
  }

  /** `begin_run`. */
  function Begin(s: State, b: Turn): State {
    if !Admissible(s, b) then s
    else s.(sessions := s.sessions[b.session := s.sessions[b.session].(state := Busy)],
            runs := s.runs + [Run(b.task, Some(b.session), Some(b.job), Developer, Running,
                                  b.reservation, None, None, None, "", s.month)])
  }

  /** Admission of one metered request: a coordinator decision, a supervision or an interpretation. */
  function BeginMetered(s: State, t: nat, role: Role, job: Option<nat>, amount: real, roleBudget: Option<real>): State {
    if role == Developer || Reserve(s, t, amount, Some(role), roleBudget).Some? then s
    else s.(runs := s.runs + [Run(t, None, job, role, Running, Some(amount), None, None, None, "", s.month)],
            metered := s.metered + {|s.runs|})
  }

  // ------------------------------------------------------------------ settlement

  datatype Operation = Development | Compaction | Continuity(acknowledged: bool)

  /**
   A native receipt with its pricing already computed: the provider's own cost, the catalogue
   price, and, for routed turns, the controller's own settlement.
   */
  datatype Receipt = Receipt(
    native: string, turn: string, status: RunStatus, failure: string,
    provider: Option<real>, priced: Option<real>, routed: Option<Option<real>>)

  datatype Settlement = Settled | AlreadySettled | NotOurs | WrongSession | AlreadyFinished | InvalidRouting

  /** A run that orphan recovery or lease expiry stopped before any receipt arrived. */
  predicate AwaitsLateReceipt(r: Run) {
    r.status == Interrupted && r.failure in {"ORPHAN_STOPPED", "EXPIRED_LEASE"}
    && r.turn.None? && r.provider.None? && r.calculated.None?
  }

  /** `apply_receipt`, and the routed settlement that replaces it. */
  function Receipted(r: Run, x: Receipt): Run {
    var row := r.(turn := Some(x.turn), failure := x.failure, status := x.status, provider := x.provider,
                  calculated := if x.priced.Some? then x.priced else r.calculated);
    match x.routed
    case None => row
    case Some(cost) =>
      if cost.None? && x.status == Completed
      then row.(provider := None, calculated := None, status := Failed, failure := "INVALID_ROUTED_USAGE")
      else row.(provider := None, calculated := cost)
  }

  /** The session after an ordinary receipt. */
  function AfterTurn(x: Receipt, op: Operation): SessionState {
    var completed := x.status == Completed && (x.routed.Some? ==> x.routed.value.Some?);
    if !completed then Blocked
    else match op
      case Continuity(acknowledged) => if acknowledged then Ready else Blocked
      case _ => Ready
  }

  /** Which receipts a worker of session `n` and job `j` may settle run `r` with. */
  function Judge(s: State, n: nat, j: nat, r: nat, x: Receipt): Settlement {
    if r >= |s.runs| || s.runs[r].session != Some(n) || s.runs[r].job != Some(j) || n >= |s.sessions| then NotOurs
    else if s.runs[r].status != Running && !AwaitsLateReceipt(s.runs[r]) then
      if s.runs[r].turn == Some(x.turn) then AlreadySettled else AlreadyFinished
    else if x.status == Running || s.sessions[n].native != Some(x.native) then WrongSession
    else if x.routed == Some(None) && x.status == Completed then InvalidRouting
    else Settled
  }

  /** `finish_run`. An invalid routing is recorded before it is reported. */
  function Finish(s: State, n: nat, j: nat, r: nat, x: Receipt, op: Operation): State {
    var verdict := Judge(s, n, j, r, x);
    if verdict != Settled && verdict != InvalidRouting then s
    else s.(runs := s.runs[r := Receipted(s.runs[r], x)],
            sessions := s.sessions[n := s.sessions[n].(
              state := if s.runs[r].status == Running then AfterTurn(x, op) else Blocked)])
  }

  /** `fail_run`; a turn that never started is known to have cost nothing. */
  function FailRun(s: State, n: nat, j: nat, r: nat, code: string, started: bool): State {
    if r >= |s.runs| || s.runs[r].session != Some(n) || s.runs[r].job != Some(j) || s.runs[r].status != Running then s
    else s.(runs := s.runs[r := s.runs[r].(status := Failed, failure := code,
                      calculated := if started then s.runs[r].calculated else Some(0.0))],
            sessions := if n < |s.sessions| then s.sessions[n := s.sessions[n].(state := Blocked)] else s.sessions)
  }

  predicate RunsFor(r: Run, job: nat) {
    r.job == Some(job) && r.status == Running
  }

  /** Stopping a revoked or expired job: every running run of it, and each such run's session. */
  function StopJob(s: State, job: nat, code: string): State {
    s.(runs := seq(|s.runs|, r requires 0 <= r < |s.runs| =>
         if RunsFor(s.runs[r], job) then s.runs[r].(status := Interrupted, failure := code) else s.runs[r]),
       sessions := seq(|s.sessions|, n requires 0 <= n < |s.sessions| =>
         if exists r :: 0 <= r < |s.runs| && RunsFor(s.runs[r], job) && s.runs[r].session == Some(n)
         then s.sessions[n].(state := Blocked) else s.sessions[n]))
  }

  /** A metered worker stores the usage of its one request, whatever became of the row meanwhile. */
  function ReportMetered(s: State, r: nat, cost: Option<real>): State {
    if r !in s.metered || r >= |s.runs| then s
    else s.(runs := s.runs[r := s.runs[r].(status := Completed, calculated := cost)], metered := s.metered - {r})
  }

  /** A metered worker that failed, before or after its report. */
  function FailMetered(s: State, r: nat, code: string): State {
    if r >= |s.runs| || s.runs[r].role == Developer || (s.runs[r].role == Interpreter && s.runs[r].status != Running) then s
    else s.(runs := s.runs[r := s.runs[r].(status := Failed, failure := code)], metered := s.metered - {r})
  }

  /** The coordinator's own recovery of an interrupted decision. */
  function InterruptMetered(s: State, r: nat): State {
    if r >= |s.runs| || s.runs[r].role != Coordinator || s.runs[r].status != Running then s
    else s.(runs := s.runs[r := s.runs[r].(status := Interrupted, failure := "COORDINATOR_INTERRUPTED")])
  }

  /** `session_started`: a native session is never replaced by another one. */
  function StartSession(s: State, n: nat, native: string, runnable: bool): State {
    if !runnable || n >= |s.sessions| then s
    else if s.sessions[n].native.Some? && s.sessions[n].native.value != "" && s.sessions[n].native.value != native then s
    else s.(sessions := s.sessions[n := s.sessions[n].(native := Some(native))])
  }

  /** A run of the task is RUNNING or its cost is unknown. */
  predicate UnsettledTask(s: State, t: nat) {
    exists r :: 0 <= r < |s.runs| && s.runs[r].task == t && (s.runs[r].status == Running || SettledCost(s.runs[r]).None?)
  }

  /** `rollover`: the native session is sealed, and the next turn opens another one. */
  function Rollover(s: State, n: nat): State {
    if n >= |s.sessions| || s.sessions[n].state in {Busy, Retired} || s.sessions[n].native.None?
       || s.sessions[n].native.value == "" || UnsettledTask(s, s.sessions[n].task) then s
    else s.(sessions := s.sessions[n := s.sessions[n].(native := None, state := Idle)])
  }

  // ------------------------------------------------------------------------ steps

  datatype Step =
    | EditTask(task: nat, after: Task)
    | EditTeam(team: nat, ready: bool)
    | OpenSession(task: nat)
    | RetireSession(session: nat)
    | NextMonth
    | Begins(turn: Turn)
    | BeginsMetered(task: nat, role: Role, under: Option<nat>, amount: real, roleBudget: Option<real>)
    | Starts(session: nat, native: string, runnable: bool)
    | RollsOver(session: nat)
    | Finishes(session: nat, job: nat, run: nat, receipt: Receipt, op: Operation)
    | FailsRun(session: nat, job: nat, run: nat, code: string, started: bool)
    | StopsJob(job: nat, expired: bool)
    | Reports(run: nat, cost: Option<real>)
    | FailsMetered(run: nat, code: string)
    | InterruptsMetered(run: nat)

  function StopCode(expired: bool): string {
    if expired then "EXPIRED_LEASE" else "ORPHAN_STOPPED"
  }

  function Next(s: State, step: Step): State {
    match step
    case EditTask(t, after) => if t < |s.tasks| then s.(tasks := s.tasks[t := after]) else s
    case EditTeam(g, ready) => if g < |s.teams| then s.(teams := s.teams[g := s.teams[g].(ready := ready)]) else s
    case OpenSession(t) => s.(sessions := s.sessions + [Session(t, Idle, None)])
    case RetireSession(n) =>
      if n < |s.sessions| && s.sessions[n].state != Busy
      then s.(sessions := s.sessions[n := s.sessions[n].(state := Retired)]) else s
    case NextMonth => s.(month := s.month + 1)
    case Begins(b) => Begin(s, b)
    case BeginsMetered(t, role, job, amount, roleBudget) => BeginMetered(s, t, role, job, amount, roleBudget)
    case Starts(n, native, runnable) => StartSession(s, n, native, runnable)
    case RollsOver(n) => Rollover(s, n)
    case Finishes(n, j, r, x, op) => Finish(s, n, j, r, x, op)
    case FailsRun(n, j, r, code, started) => FailRun(s, n, j, r, code, started)
    case StopsJob(job, expired) => StopJob(s, job, StopCode(expired))
    case Reports(r, cost) => ReportMetered(s, r, cost)
    case FailsMetered(r, code) => FailMetered(s, r, code)
    case InterruptsMetered(r) => InterruptMetered(s, r)
  }

  /** No runs yet, and budgets that are not negative. */
  predicate Initial(s: State) {
    && s.runs == [] && s.metered == {}
    && (forall n :: 0 <= n < |s.sessions| ==> s.sessions[n].state != Busy)
    && (forall g :: 0 <= g < |s.teams| ==>
          s.teams[g].teamBudget >= 0.0 && s.teams[g].taskBudget >= 0.0
          && (s.teams[g].monthly.Some? ==> s.teams[g].monthly.value >= 0.0))
    && (s.account.Some? ==> s.account.value >= 0.0)
    && |s.teamOf| == |s.tasks| && (forall t :: 0 <= t < |s.teamOf| ==> s.teamOf[t] < |s.teams|)
  }

  /** State `i + 1` follows state `i` by step `i`. */
  ghost predicate Linked(states: seq<State>, steps: seq<Step>, i: int) {
    0 <= i < |steps| && i + 1 < |states| && states[i + 1] == Next(states[i], steps[i])
  }

  ghost predicate IsRun(states: seq<State>, steps: seq<Step>) {
    && |states| == |steps| + 1
    && Initial(states[0])
    && forall i :: 0 <= i < |steps| ==> Linked(states, steps, i)
  }
}
