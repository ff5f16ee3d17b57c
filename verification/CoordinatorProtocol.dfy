/**
 The coordinator's tables and its transactions.

 A table is a sequence whose index is the primary key: rows are inserted at the end and
 never deleted. Every function below is one database transaction, with the guards and
 writes of the code; what a transaction learns from outside these tables (settings, actor
 permissions, query results, engineering work) is an argument.
 */
module CoordinatorProtocol {
  import opened Prelude

  datatype Mode = Off | Shadow | Active

  datatype Settings = Settings(mode: Mode, providers: set<string>)

  /** Provider opt-in: a provider that is not listed is switched off. */
  function ModeOf(cfg: Settings, provider: string): Mode {
    if provider in cfg.providers then cfg.mode else Off
  }

  datatype TaskStatus = New | InProgress | WaitingHuman | WaitingExternal | Paused | Merged | Failed | Cancelled

  /** `teamReady`: the task has a Team that is enabled, not paused and not archived. */
  datatype Task = Task(
    lifecycle: nat, requirement: nat, status: TaskStatus,
    teamReady: bool, archived: bool, takeover: bool, revision: string)

  datatype EventStatus = Queued | Claimed | Processed | EventFailed | Suspended | Unauthorized | Echo

  datatype Event = Event(
    task: nat, provider: string, key: string, actor: string, kind: string,
    replyProvider: Option<string>, humanRequest: Option<nat>, headSha: string, truncated: bool,
    status: EventStatus, run: Option<nat>, available: int, created: int)

  datatype RunStatus = RunClaimed | RunShadow | RunReady | RunCompleted | RunRejected | RunSuperseded | RunFailed

  datatype Run = Run(
    task: nat, mode: Mode, status: RunStatus, requirement: nat, lifecycle: nat,
    trigger: nat, decision: Option<Decision>, created: int)

  datatype Directive =
    | Wait | Reply | RequestReview | UpdateSummary | SyncStatus | RequestValidation
    | AskHuman | Implement | Repair | Pause | Cancel

  datatype Decision = Decision(action: Directive, message: string)

  function OutboundMessage(d: Decision): string {
    if d.action.Wait? then "" else d.message
  }

  datatype ActionStatus =
    | Pending | WaitingEngineer | Superseded | Rejected
    | DeliveryPending | Sending | Unknown | Reconciling | Executed

  function DeliveryStatus(d: Decision): ActionStatus {
    if OutboundMessage(d) != "" || d.action.RequestReview? then DeliveryPending else Executed
  }

  /** What `_record_effect` writes into the action's arguments. */
  datatype Recorded = Recorded(provider: string, message: string, requirement: nat, lifecycle: nat)

  datatype Action = Action(
    run: nat, task: nat, kind: Directive, status: ActionStatus, decision: Decision, event: nat,
    recorded: Option<Recorded>, reconcile: bool, reference: Option<string>,
    created: int, attempted: Option<int>, checking: Option<int>)

  datatype HumanStatus = Open | Answered | Withdrawn

  datatype HumanRequest = HumanRequest(
    task: nat, run: nat, question: string, status: HumanStatus,
    requirement: nat, lifecycle: nat, answer: Option<string>, created: int)

  /** What one worker holds in memory between claiming a delivery and settling it. */
  datatype Delivery = Held | Posted

  /** A history variable: the committed effects, with the task as the effect found it. */
  datatype Effect = Effect(action: nat, before: Task, after: Task, current: bool)

  /** `deliveries` is worker memory; `effects` and `posts` are history variables. */
  datatype State = State(
    tasks: seq<Task>, events: seq<Event>, runs: seq<Run>, actions: seq<Action>, humans: seq<HumanRequest>,
    now: int, deliveries: map<nat, Delivery>, effects: seq<Effect>, posts: seq<nat>)

  // ---------------------------------------------------------------- queries

  /** The reply channel of an event. */
  function Channel(e: Event): string {
    if e.replyProvider.Some? then e.replyProvider.value else e.provider
  }

  predicate Busy(status: RunStatus) {
    status == RunClaimed || status == RunReady
  }

  predicate HasActiveRun(s: State, t: nat) {
    exists r :: 0 <= r < |s.runs| && s.runs[r].task == t && Busy(s.runs[r].status)
  }

  /** Team and task admit coordination. */
  predicate Coordinated(t: Task) {
    t.teamReady && !t.archived && !t.takeover
  }

  predicate SameVersions(t: Task, lifecycle: nat, requirement: nat) {
    t.lifecycle == lifecycle && t.requirement == requirement
  }

  /** The environment may change a task in any way that never lowers a version. */
  predicate Advances(before: Task, after: Task) {
    before.lifecycle <= after.lifecycle && before.requirement <= after.requirement
  }

  predicate Live(h: HumanRequest) {
    h.status == Open || h.status == Answered
  }

  /** Request `h` of task number `t` is live at the versions of `task`. */
  predicate LiveFor(humans: seq<HumanRequest>, t: nat, task: Task, h: nat) {
    h < |humans| && humans[h].task == t && Live(humans[h]) && SameVersions(task, humans[h].lifecycle, humans[h].requirement)
  }

  /** The newest live request of the task at the task's present versions. */
  function LatestHuman(humans: seq<HumanRequest>, t: nat, task: Task): (r: Option<nat>)
    ensures r.None? ==> forall h: nat :: !LiveFor(humans, t, task, h)
    ensures r.Some? ==> LiveFor(humans, t, task, r.value)
  {
    var p := (h: nat) => LiveFor(humans, t, task, h);
    assert forall h: nat :: LiveFor(humans, t, task, h) ==> h < |humans| && p(h);
    LastIndex(|humans|, p)
  }

  // ------------------------------------------------------------ bulk updates

  /** UPDATE coordinator_events SET status WHERE run_id = r. */
  function SetBatch(events: seq<Event>, r: nat, status: EventStatus): (out: seq<Event>) {
    seq(|events|, i requires 0 <= i < |events| =>
      if events[i].run == Some(r) then events[i].(status := status) else events[i])
  }

  /** `requeue_run_events`: the whole batch goes back to the queue. */
  function Requeue(events: seq<Event>, r: nat, now: int): (out: seq<Event>) {
    seq(|events|, i requires 0 <= i < |events| =>
      if events[i].run == Some(r)
      then events[i].(status := Queued, run := None, available := now) else events[i])
  }

  // ------------------------------------------------------------------- claim

  /** The query results and settings that one `claim` transaction works with. */
  datatype ClaimInput = ClaimInput(
    cfg: Settings, pick: Option<nat>, taskFree: bool, batch: seq<nat>, locked: set<nat>,
    permitted: set<nat>, requirementKnown: bool)

  predicate ValidPick(s: State, e: nat) {
    e < |s.events| && s.events[e].status == Queued && s.events[e].available <= s.now
  }

  predicate Eligible(s: State, t: nat, e: nat) {
    e < |s.events| && s.events[e].task == t && s.events[e].status == Queued && s.events[e].created <= s.now
  }

  /** At most five eligible rows, oldest first, passing over only rows other workers hold. */
  ghost predicate ValidBatch(s: State, t: nat, batch: seq<nat>, locked: set<nat>) {
    && |batch| <= 5
    && Distinct(batch)
    && (forall i :: 0 <= i < |batch| ==> Eligible(s, t, batch[i]) && batch[i] !in locked)
    && (forall i, j :: 0 <= i < j < |batch| ==> s.events[batch[i]].created <= s.events[batch[j]].created)
    && (forall e: nat :: Eligible(s, t, e) && e !in locked && e !in batch ==>
          |batch| == 5 && s.events[batch[4]].created <= s.events[e].created)
  }

  datatype Verdict = Suspend | Refuse | Admit

  function Judge(s: State, q: ClaimInput, e: nat): Verdict
    requires e < |s.events|
  {
    if q.cfg.mode == Off || Channel(s.events[e]) !in q.cfg.providers then Suspend
    else if e in q.permitted then Admit
    else Refuse
  }

  /** The admitted rows of the batch, in batch order. */
  function Admitted(s: State, q: ClaimInput, batch: seq<nat>): (r: seq<nat>)
    requires forall i :: 0 <= i < |batch| ==> batch[i] < |s.events|
    ensures forall i :: 0 <= i < |r| ==> r[i] in batch && r[i] < |s.events| && Judge(s, q, r[i]) == Admit
    ensures forall i :: 0 <= i < |batch| && Judge(s, q, batch[i]) == Admit ==> batch[i] in r
  {
    if batch == [] then []
    else if Judge(s, q, batch[|batch| - 1]) == Admit
    then Admitted(s, q, batch[..|batch| - 1]) + [batch[|batch| - 1]]
    else Admitted(s, q, batch[..|batch| - 1])
  }

  /** The last admitted event that is not an engineering notice, else the last one. */
  function Trigger(s: State, admitted: seq<nat>): (e: nat)
    requires admitted != []
    requires forall i :: 0 <= i < |admitted| ==> admitted[i] < |s.events|
    ensures e in admitted
  {
    var outside := LastIndex(|admitted|, (i: nat) => i < |admitted| && s.events[admitted[i]].provider != "engineering");
    if outside.Some? then admitted[outside.value] else admitted[|admitted| - 1]
  }

  /** Every row of the batch gets its verdict; admitted rows join run `r`. */
  function Triaged(s: State, q: ClaimInput, r: nat, status: EventStatus): (out: seq<Event>) {
    seq(|s.events|, i requires 0 <= i < |s.events| =>
      if i !in q.batch then s.events[i]
      else match Judge(s, q, i)
        case Suspend => s.events[i].(status := Suspended)
        case Refuse => s.events[i].(status := Unauthorized)
        case Admit => s.events[i].(status := status, run := Some(r)))
  }

  ghost function Claim(s: State, q: ClaimInput): State {
    if q.pick.None? || !ValidPick(s, q.pick.value) || !q.taskFree then s
    else
      var pick := q.pick.value;
      var t := s.events[pick].task;
      if t >= |s.tasks| || HasActiveRun(s, t) then s
      else if !Coordinated(s.tasks[t]) then
        s.(events := s.events[pick := s.events[pick].(status := Suspended)])
      else if !ValidBatch(s, t, q.batch, q.locked) then s
      else if Admitted(s, q, q.batch) == [] then s.(events := Triaged(s, q, |s.runs|, Claimed))
      else ClaimBatch(s, q, t)
  }

  /** A new run takes the admitted rows; without a readable requirement it fails at once. */
  function ClaimBatch(s: State, q: ClaimInput, t: nat): State
    requires t < |s.tasks|
    requires forall i :: 0 <= i < |q.batch| ==> q.batch[i] < |s.events|
    requires Admitted(s, q, q.batch) != []
  {
    var run := Run(t, q.cfg.mode, if q.requirementKnown then RunClaimed else RunFailed,
                   s.tasks[t].requirement, s.tasks[t].lifecycle, Trigger(s, Admitted(s, q, q.batch)), None, s.now);
    s.(runs := s.runs + [run],
       events := Triaged(s, q, |s.runs|, if q.requirementKnown then Claimed else EventFailed))
  }

  // ------------------------------------------------- complete, fail, recover

  function Complete(s: State, r: nat, t: nat, d: Decision): State {
    if r >= |s.runs| || s.runs[r].status != RunClaimed then s
    else if s.runs[r].task != t || t >= |s.tasks|
         || !SameVersions(s.tasks[t], s.runs[r].lifecycle, s.runs[r].requirement) then s
    else
      var run := s.runs[r].(decision := Some(d), status := if s.runs[r].mode == Shadow then RunShadow else RunReady);
      var action := Action(r, t, d.action, Pending, d, run.trigger, None, false, None, s.now, None, None);
      s.(runs := s.runs[r := run],
         actions := if run.mode == Active then s.actions + [action] else s.actions,
         events := SetBatch(s.events, r, Processed))
  }

  function Fail(s: State, r: nat, superseded: bool): State {
    if r >= |s.runs| || s.runs[r].status != RunClaimed then s
    else if superseded then
      s.(runs := s.runs[r := s.runs[r].(status := RunSuperseded)], events := Requeue(s.events, r, s.now))
    else
      s.(runs := s.runs[r := s.runs[r].(status := RunFailed)], events := SetBatch(s.events, r, EventFailed))
  }

  /** Team, task and claim still carry the inference of run `r`. */
  predicate Authorized(s: State, r: nat) {
    r < |s.runs| && s.runs[r].status == RunClaimed && s.runs[r].task < |s.tasks| && Coordinated(s.tasks[s.runs[r].task])
  }

  /** How an inference ends: with a decision, because the watcher saw the task advance, or with any other exception. */
  datatype Ending = Decides(decision: Decision) | Advanced | Broken

  /** The transactions by which `process_one` ends a turn, whatever others did to its run meanwhile. */
  function Settle(s: State, r: nat, t: nat, ending: Ending): State {
    match ending
    case Advanced => Fail(s, r, true)
    case Broken => Fail(s, r, false)
    case Decides(d) =>
      if !Authorized(s, r) then Fail(s, r, false)
      else if !SameVersions(s.tasks[s.runs[r].task], s.runs[r].lifecycle, s.runs[r].requirement) then Fail(s, r, true)
      else if s.runs[r].task != t then Fail(s, r, false)
      else Complete(s, r, t, d)
  }

  const FIVE_MINUTES := 300
  const TWO_MINUTES := 120

  predicate StaleRun(s: State, locked: set<nat>, r: nat) {
    r < |s.runs| && s.runs[r].status == RunClaimed && s.runs[r].created < s.now - FIVE_MINUTES && r !in locked
  }

  /** Every stale claim fails together with its batch. */
  function RecoverRuns(s: State, locked: set<nat>): State {
    s.(runs := seq(|s.runs|, r requires 0 <= r < |s.runs| =>
         if StaleRun(s, locked, r) then s.runs[r].(status := RunFailed) else s.runs[r]),
       events := seq(|s.events|, e requires 0 <= e < |s.events| =>
         if s.events[e].run.Some? && StaleRun(s, locked, s.events[e].run.value)
         then s.events[e].(status := EventFailed) else s.events[e]))
  }

  // ----------------------------------------------------------------- execute

  /** An engineering notice that a lifecycle change inserts. */
  datatype Notice = Notice(key: string, kind: string, channel: string)

  /** The result of the lifecycle services that an effect calls. */
  datatype Control = Raises | Moves(task: Task, notices: seq<Notice>)

  /**
   What `_apply` reads outside these tables. `busy`: a run of the task is RUNNING;
   `settled`: the task's consumed cost is known; `scope`: repository and Team policy admit
   the directive.
   */
  datatype Surroundings = Surroundings(
    cfg: Settings, permitted: set<nat>, busy: bool, settled: bool, scope: bool, control: Control)

  predicate Passive(d: Directive) {
    d.Wait? || d.Reply?
  }

  /** `validate_effect`. */
  predicate EffectValid(d: Decision, t: Task, lifecycle: nat, requirement: nat, continuation: bool, engineering: bool) {
    && SameVersions(t, lifecycle, requirement)
    && !t.takeover
    && (engineering ==> Passive(d.action))
    && (t.status in {Merged, Failed, Cancelled, Paused} ==> Passive(d.action))
    && (t.status == WaitingHuman && !continuation ==> Passive(d.action))
  }

  predicate FromRun(s: State, r: nat, e: nat) {
    e < |s.events| && s.events[e].run == Some(r)
  }

  /** A queued event of the task, created after `since`. */
  predicate NewerQueued(s: State, t: nat, since: int) {
    exists e :: 0 <= e < |s.events| && s.events[e].task == t
      && s.events[e].status == Queued && s.events[e].created > since
  }

  /** The human answer that lets a waiting task continue is part of this batch. */
  predicate Continuation(s: State, r: nat, t: nat)
    requires t < |s.tasks|
  {
    var human := LatestHuman(s.humans, t, s.tasks[t]);
    human.Some? && s.humans[human.value].status == Answered
    && exists e :: 0 <= e < |s.events| && FromRun(s, r, e)
         && s.events[e].kind == "HUMAN_RESPONSE" && s.events[e].humanRequest == human
  }

  datatype Outcome = Commits(task: Task, notices: seq<Notice>) | News | EngineerBusy | Invalid

  /** Directives that call the lifecycle services. */
  predicate Dispatches(d: Directive) {
    d.RequestValidation? || d.AskHuman? || d.Implement? || d.Repair? || d.Pause? || d.Cancel?
  }

  /** The checks on the run's sources: `_apply` raises when one of them fails. */
  predicate SourcesHold(s: State, a: nat, x: Surroundings)
    requires a < |s.actions| && s.actions[a].run < |s.runs| && s.actions[a].task < |s.tasks|
  {
    var action := s.actions[a];
    var task := s.tasks[action.task];
    && action.event < |s.events| && action.event in x.permitted
    && task.teamReady && !task.archived
    && (forall e :: 0 <= e < |s.events| && FromRun(s, action.run, e) ==>
          ModeOf(x.cfg, Channel(s.events[e])) == Active && e in x.permitted)
    && ModeOf(x.cfg, Channel(s.events[action.event])) == Active
    && (!Passive(action.decision.action) ==>
          forall e :: 0 <= e < |s.events| && FromRun(s, action.run, e) && s.events[e].provider == "github" ==>
            s.events[e].headSha == "" || s.events[e].headSha == task.revision)
  }

  /** The checks on engineering work, in the order in which they raise; None goes on to the effect. */
  function EngineeringVerdict(s: State, a: nat, x: Surroundings): Option<Outcome>
    requires a < |s.actions|
  {
    var action := s.actions[a];
    var d := action.decision.action;
    var engineering := d.Implement? || d.Repair?;
    if engineering && (exists e :: 0 <= e < |s.events| && FromRun(s, action.run, e) && s.events[e].truncated) then Some(Invalid)
    else if d.RequestReview? && (ModeOf(x.cfg, "github") != Active || !x.scope) then Some(Invalid)
    else if (d.RequestValidation? || engineering) && !x.scope then Some(Invalid)
    else if engineering && x.busy then Some(EngineerBusy)
    else if engineering && !x.settled then Some(Invalid)
    else None
  }

  /** The checks of `_apply`, in the order in which they raise. */
  function Weigh(s: State, a: nat, x: Surroundings): Outcome
    requires a < |s.actions| && s.actions[a].run < |s.runs| && s.actions[a].task < |s.tasks|
  {
    var action := s.actions[a];
    var run := s.runs[action.run];
    var task := s.tasks[action.task];
    if !SourcesHold(s, a, x) then Invalid
    else if !EffectValid(action.decision, task, run.lifecycle, run.requirement, Continuation(s, action.run, action.task),
                         s.events[action.event].provider == "engineering") then Invalid
    else if NewerQueued(s, action.task, run.created) then News
    else if EngineeringVerdict(s, a, x).Some? then EngineeringVerdict(s, a, x).value
    else if !Dispatches(action.decision.action) then Commits(task, [])
    else match x.control
      case Raises => Invalid
      case Moves(after, notices) => Commits(after, notices)
  }

  function NoticeEvent(t: nat, n: Notice, now: int): Event {
    Event(t, "engineering", n.key, "engineering", n.kind, Some(n.channel), None, "", false, Queued, None, now, now)
  }

  function NoticeEvents(t: nat, notices: seq<Notice>, now: int): (out: seq<Event>) {
    seq(|notices|, i requires 0 <= i < |notices| => NoticeEvent(t, notices[i], now))
  }

  /** The unique constraint on (provider, delivery_key). */
  predicate UniqueKeys(events: seq<Event>) {
    forall i, j :: 0 <= i < j < |events| && events[i].provider == events[j].provider ==> events[i].key != events[j].key
  }

  /** ASK_HUMAN withdraws the live request and opens a new one at the task's new versions. */
  function Asked(s: State, a: nat, after: Task): seq<HumanRequest>
    requires a < |s.actions| && s.actions[a].task < |s.tasks|
  {
    var t := s.actions[a].task;
    var previous := LatestHuman(s.humans, t, s.tasks[t]);
    var kept := if previous.Some?
                then s.humans[previous.value := s.humans[previous.value].(status := Withdrawn)] else s.humans;
    kept + [HumanRequest(t, s.actions[a].run, s.actions[a].decision.message, Open,
                         after.requirement, after.lifecycle, None, s.now)]
  }

  /** The whole effect of one committed decision. */
  function Commit(s: State, a: nat, after: Task, notices: seq<Notice>): State
    requires a < |s.actions| && s.actions[a].run < |s.runs| && s.actions[a].task < |s.tasks|
    requires s.actions[a].event < |s.events|
  {
    var action := s.actions[a];
    var d := action.decision;
    var recorded := Recorded(Channel(s.events[action.event]), OutboundMessage(d), after.requirement, after.lifecycle);
    s.(tasks := s.tasks[action.task := after],
       events := s.events + NoticeEvents(action.task, notices, s.now),
       humans := if d.action.AskHuman? then Asked(s, a, after) else s.humans,
       runs := s.runs[action.run := s.runs[action.run].(status := RunCompleted)],
       actions := s.actions[a := action.(recorded := Some(recorded), status := DeliveryStatus(d))],
       effects := s.effects + [Effect(a, s.tasks[action.task], after,
                                      !NewerQueued(s, action.task, s.runs[action.run].created))])
  }

  /** Intent and run are dropped together; the batch goes back to the queue. */
  function Supersede(s: State, a: nat): State
    requires a < |s.actions| && s.actions[a].run < |s.runs|
  {
    var r := s.actions[a].run;
    s.(actions := s.actions[a := s.actions[a].(status := Superseded)],
       runs := s.runs[r := s.runs[r].(status := RunSuperseded)],
       events := Requeue(s.events, r, s.now))
  }

  predicate Executable(s: State, a: nat, x: Surroundings) {
    a < |s.actions|
    && (s.actions[a].status == Pending
        || (s.actions[a].status == WaitingEngineer
            && (!x.busy || NewerQueued(s, s.actions[a].task, s.actions[a].created))))
  }

  /**
   What an outcome of the checks leads to. A lifecycle result that lowers a version is not one
   the services can give, and a notice whose key is taken aborts the whole transaction.
   */
  function Resolve(s: State, a: nat, outcome: Outcome): State
    requires a < |s.actions| && s.actions[a].run < |s.runs| && s.actions[a].task < |s.tasks|
    requires outcome.Commits? ==> s.actions[a].event < |s.events|
  {
    var action := s.actions[a];
    match outcome
    case News => Supersede(s, a)
    case EngineerBusy => s.(actions := s.actions[a := action.(status := WaitingEngineer)])
    case Invalid =>
      s.(actions := s.actions[a := action.(status := Rejected)],
         runs := s.runs[action.run := s.runs[action.run].(status := RunRejected)])
    case Commits(after, notices) =>
      if Advances(s.tasks[action.task], after)
         && UniqueKeys(s.events + NoticeEvents(action.task, notices, s.now))
      then Commit(s, a, after, notices) else s
  }

  /** One `execute_one` transaction. */
  function Execute(s: State, a: nat, x: Surroundings): State {
    if !Executable(s, a, x) || s.actions[a].run >= |s.runs| || s.actions[a].task >= |s.tasks| then s
    else
      var run := s.runs[s.actions[a].run];
      if !SameVersions(s.tasks[s.actions[a].task], run.lifecycle, run.requirement) then Supersede(s, a)
      else Resolve(s, a, Weigh(s, a, x))
  }

  // ---------------------------------------------------------------- delivery

  /** The authority checks of `claim_delivery`. */
  predicate Deliverable(s: State, a: nat, cfg: Settings, permitted: set<nat>)
    requires a < |s.actions|
  {
    var action := s.actions[a];
    && action.recorded.Some? && action.task < |s.tasks| && action.event < |s.events|
    && Coordinated(s.tasks[action.task])
    && ModeOf(cfg, action.recorded.value.provider) == Active
    && SameVersions(s.tasks[action.task], action.recorded.value.lifecycle, action.recorded.value.requirement)
    && action.event in permitted
  }

  function ClaimDelivery(s: State, a: nat, cfg: Settings, permitted: set<nat>): State {
    if a >= |s.actions| || s.actions[a].status != DeliveryPending then s
    else if !Deliverable(s, a, cfg, permitted) then
      s.(actions := s.actions[a := s.actions[a].(status := Rejected)])
    else if s.actions[a].kind.RequestReview? && ModeOf(cfg, "github") != Active then
      s.(actions := s.actions[a := s.actions[a].(status := Rejected, attempted := Some(s.now))])
    else
      s.(actions := s.actions[a := s.actions[a].(status := Sending, attempted := Some(s.now))],
         deliveries := s.deliveries[a := Held])
  }

  /** The worker's request reaches the provider. */
  function Post(s: State, a: nat): State {
    if a in s.deliveries && s.deliveries[a] == Held
    then s.(deliveries := s.deliveries[a := Posted], posts := s.posts + [a]) else s
  }

  /** The worker gives up; the request may or may not have reached the provider. */
  function FailDelivery(s: State, a: nat, reconcile: bool): State {
    if a !in s.deliveries || a >= |s.actions| then s
    else
      var released := s.(deliveries := s.deliveries - {a});
      if s.actions[a].status == Executed then released
      else released.(actions := s.actions[a := s.actions[a].(status := Unknown, reconcile := reconcile)])
  }

  /** Only a worker whose request was answered completes a delivery. */
  function CompleteDelivery(s: State, a: nat, reference: string): State {
    if a !in s.deliveries || s.deliveries[a] != Posted || a >= |s.actions| then s
    else s.(deliveries := s.deliveries - {a},
            actions := s.actions[a := s.actions[a].(status := Executed, reference := Some(reference))])
  }

  function ClaimReconciliation(s: State, a: nat): State {
    if a >= |s.actions| || s.actions[a].status != Unknown || !s.actions[a].reconcile
       || s.actions[a].attempted.None? then s
    else s.(actions := s.actions[a := s.actions[a].(status := Reconciling, reconcile := false, checking := Some(s.now))])
  }

  /** States in which a delivery has been claimed and not refused. */
  predicate Dispatched(status: ActionStatus) {
    status in {Sending, Unknown, Reconciling, Executed}
  }

  /** A checker may report at any time after a claim, however late. An empty reference is no reference. */
  function CompleteReconciliation(s: State, a: nat, reference: Option<string>): State {
    if a >= |s.actions| || !Dispatched(s.actions[a].status) || s.actions[a].checking.None? then s
    else if s.actions[a].status == Executed then s
    else s.(actions := s.actions[a := s.actions[a].(
         status := if reference.Some? && reference.value != "" then Executed else Unknown, reference := reference)])
  }

  predicate StaleSending(s: State, locked: set<nat>, a: nat) {
    a < |s.actions| && s.actions[a].status == Sending && a !in locked
    && s.actions[a].attempted.Some? && s.actions[a].attempted.value < s.now - TWO_MINUTES
  }

  predicate StaleChecking(s: State, locked: set<nat>, a: nat) {
    a < |s.actions| && s.actions[a].status == Reconciling && a !in locked
    && s.actions[a].checking.Some? && s.actions[a].checking.value < s.now - TWO_MINUTES
  }

  function RecoverActions(s: State, locked: set<nat>): State {
    s.(actions := seq(|s.actions|, a requires 0 <= a < |s.actions| =>
      if StaleSending(s, locked, a)
      then s.actions[a].(status := Unknown, reconcile := !s.actions[a].kind.RequestReview?)
      else if StaleChecking(s, locked, a) then s.actions[a].(status := Unknown)
      else s.actions[a]))
  }

  /** The operator asks for another check of an uncertain delivery. */
  function RequestCheck(s: State, a: nat): State {
    if a >= |s.actions| || s.actions[a].status != Unknown || s.actions[a].kind.RequestReview? then s
    else s.(actions := s.actions[a := s.actions[a].(reconcile := true)])
  }

  // ------------------------------------------------------------------- inbox

  /** One inbound message, with what `enqueue` reads about its sender. */
  datatype Incoming = Incoming(
    task: nat, provider: string, key: string, actor: string, body: string, kind: string,
    effect: string, humanRequest: Option<nat>, replyProvider: Option<string>, headSha: string,
    identity: Option<string>, permitted: bool)

  const MAX_BODY := 16000
  const KEPT_BODY := 8000

  predicate IsBlank(c: char) {
    c in {' ', '\t', '\n', '\r', '\U{0B}', '\U{0C}', '\U{1C}', '\U{1D}', '\U{1E}', '\U{1F}', '\U{85}', '\U{A0}',
          '\U{1680}', '\U{2000}', '\U{2001}', '\U{2002}', '\U{2003}', '\U{2004}', '\U{2005}', '\U{2006}', '\U{2007}',
          '\U{2008}', '\U{2009}', '\U{200A}', '\U{2028}', '\U{2029}', '\U{202F}', '\U{205F}', '\U{3000}'}
  }

  predicate Blank(body: string) {
    forall i :: 0 <= i < |body| ==> IsBlank(body[i])
  }

  function Kept(body: string): string {
    if |body| > KEPT_BODY then body[..KEPT_BODY] else body
  }

  predicate SeenKey(s: State, m: Incoming) {
    exists e :: 0 <= e < |s.events| && s.events[e].provider == m.provider && s.events[e].key == m.key
  }

  predicate OwnEffect(s: State, m: Incoming) {
    m.effect != "" && exists a :: 0 <= a < |s.actions| && s.actions[a].reference == Some(m.effect) && s.actions[a].task == m.task
  }

  /** Action `a` is this very message, already on its way out. */
  predicate EchoOf(s: State, m: Incoming, a: nat) {
    a < |s.actions| && s.actions[a].task == m.task && Dispatched(s.actions[a].status)
    && s.actions[a].recorded.Some? && s.actions[a].recorded.value.provider == m.provider
    && s.actions[a].recorded.value.message == m.body
  }

  /** The newest outgoing message that this message repeats, if its sender is the integration itself. */
  function FindEcho(s: State, m: Incoming): (r: Option<nat>)
    ensures r.Some? ==> EchoOf(s, m, r.value)
  {
    if m.provider !in {"dashboard", "engineering"} && m.identity.Some? && m.identity.value != "" && m.identity.value == m.actor
    then LastIndex(|s.actions|, (a: nat) => EchoOf(s, m, a)) else None
  }

  function InboundEvent(s: State, m: Incoming, kind: string, human: Option<nat>, status: EventStatus, delay: nat): Event {
    Event(m.task, m.provider, m.key, m.actor, kind, m.replyProvider, human, m.headSha, |m.body| > KEPT_BODY,
          status, None, s.now + delay, s.now)
  }

  /** The live request whose question went out on the message's own channel. */
  predicate Answerable(s: State, m: Incoming, h: nat)
    requires m.task < |s.tasks|
  {
    LiveFor(s.humans, m.task, s.tasks[m.task], h)
    && exists a :: 0 <= a < |s.actions| && s.actions[a].run == s.humans[h].run
         && (m.provider == "dashboard" || (s.actions[a].recorded.Some? && s.actions[a].recorded.value.provider == m.provider))
  }

  /** The request a message is about: the one it names, else the one its channel asked. */
  function Addressed(s: State, m: Incoming): Option<nat>
    requires m.task < |s.tasks|
  {
    if m.humanRequest.Some? then m.humanRequest
    else LastIndex(|s.humans|, (h: nat) => Answerable(s, m, h))
  }

  /** The inserted row, and the request it answers. */
  function Receive(s: State, m: Incoming, delay: nat): State
    requires m.task < |s.tasks|
  {
    var about := Addressed(s, m);
    if about.Some? && LiveFor(s.humans, m.task, s.tasks[m.task], about.value) then
      var h := about.value;
      s.(humans := if s.humans[h].status == Open
                   then s.humans[h := s.humans[h].(status := Answered, answer := Some(Kept(m.body)))] else s.humans,
         events := s.events + [InboundEvent(s, m, "HUMAN_RESPONSE", about, Queued, delay)])
    else
      s.(events := s.events + [InboundEvent(s, m, m.kind, about, Queued, delay)])
  }

  /** A message whose key is new: an echo of our own, a sender without authority, or an event. */
  function Arrive(s: State, m: Incoming, cfg: Settings, delay: nat): State
    requires m.task < |s.tasks|
  {
    var echo := FindEcho(s, m);
    if echo.Some? then
      s.(actions := if m.effect == "" then s.actions
                    else s.actions[echo.value := s.actions[echo.value].(status := Executed, reference := Some(m.effect))],
         events := s.events + [InboundEvent(s, m, "EFFECT_CONFIRMED", None, Echo, 0)])
    else if !m.permitted then
      s.(events := s.events + [InboundEvent(s, m, m.kind, m.humanRequest, Unauthorized, delay)])
    else if ModeOf(cfg, m.provider) == Active then Receive(s, m, delay)
    else s.(events := s.events + [InboundEvent(s, m, m.kind, m.humanRequest, Queued, delay)])
  }

  function Enqueue(s: State, m: Incoming, cfg: Settings, delay: nat): State {
    if m.task >= |s.tasks| || ModeOf(cfg, m.provider) == Off then s
    else if Blank(m.body) || |m.body| > MAX_BODY then s
    else if SeenKey(s, m) || OwnEffect(s, m) then s
    else Arrive(s, m, cfg, delay)
  }

  datatype ResponseError = TaskSuspended | NotFound | Closed | TaskChanged | NotActive | BadMessage

  /** The guards of `human_response`, in the order in which they raise. */
  function ResponseVerdict(s: State, t: nat, h: nat, cfg: Settings): Result<(), ResponseError>
    requires t < |s.tasks|
  {
    if !Coordinated(s.tasks[t]) || s.tasks[t].status in {Paused, Merged, Failed, Cancelled} then Err(TaskSuspended)
    else if h >= |s.humans| || s.humans[h].task != t then Err(NotFound)
    else if s.humans[h].status != Open then Err(Closed)
    else if !SameVersions(s.tasks[t], s.humans[h].lifecycle, s.humans[h].requirement) then Err(TaskChanged)
    else if ModeOf(cfg, "dashboard") != Active then Err(NotActive)
    else Ok(())
  }

  /** The message that `human_response` enqueues; `key` is its key for request `h`. The dashboard permits its operator. */
  function Response(t: nat, h: nat, key: string, answer: string): Incoming {
    Incoming(t, "dashboard", key, "local-operator", answer, "HUMAN_RESPONSE", "", Some(h), None, "", None, true)
  }

  /** An engineering event; a key that is taken inserts nothing. */
  function Notify(s: State, t: nat, n: Notice, delay: nat): State {
    if t >= |s.tasks|
       || exists e :: 0 <= e < |s.events| && s.events[e].provider == "engineering" && s.events[e].key == n.key then s
    else s.(events := s.events + [NoticeEvent(t, n, s.now).(available := s.now + delay)])
  }

  /** The newest event of the task that came from outside and was not turned away. */
  function LastOutside(events: seq<Event>, t: nat): (r: Option<nat>)
    ensures r.Some? ==> r.value < |events| && events[r.value].task == t && events[r.value].provider != "engineering"
  {
    LastIndex(|events|, (e: nat) => e < |events| && events[e].task == t && events[e].provider != "engineering"
                                    && events[e].status !in {Unauthorized, Echo})
  }

  /** `notify_engineering`: a lifecycle change is reported to whoever spoke last, if that channel is switched on. */
  function NotifyEngineering(s: State, t: nat, key: string, kind: string, cfg: Settings): State {
    var previous := LastOutside(s.events, t);
    if previous.None? || ModeOf(cfg, s.events[previous.value].provider) == Off then s
    else Notify(s, t, Notice(key, kind, s.events[previous.value].provider), 0)
  }

  /** `notify_observation`: a reconciled fact, for the channel that it is about. */
  function NotifyObservation(s: State, t: nat, n: Notice, cfg: Settings, delay: nat): State {
    if ModeOf(cfg, n.channel) == Off then s else Notify(s, t, n, delay)
  }

  // -------------------------------------------------------------------- runs

  datatype Step =
    | Elapse(seconds: nat)
    | Edit(task: nat, after: Task)
    | Receives(message: Incoming, cfg: Settings, delay: nat)
    | Notifies(task: nat, key: string, kind: string, cfg: Settings)
    | Observes(task: nat, notice: Notice, cfg: Settings, delay: nat)
    | Claims(input: ClaimInput)
    | Completes(run: nat, task: nat, decision: Decision)
    | Fails(run: nat, superseded: bool)
    | RecoversRuns(locked: set<nat>)
    | Executes(action: nat, around: Surroundings)
    | ClaimsDelivery(action: nat, cfg: Settings, permitted: set<nat>)
    | Posts(action: nat)
    | FailsDelivery(action: nat)
    | CompletesDelivery(action: nat, reference: string)
    | ClaimsCheck(action: nat)
    | CompletesCheck(action: nat, found: Option<string>)
    | RecoversActions(locked: set<nat>)
    | RequestsCheck(action: nat)

  /** Steps of the environment and of the inbox. */
  predicate OnInbox(step: Step) {
    step.Elapse? || step.Edit? || step.Receives? || step.Notifies? || step.Observes?
  }

  /** Steps of the workers that deliver. */
  predicate OnDelivery(step: Step) {
    step.ClaimsDelivery? || step.Posts? || step.FailsDelivery? || step.CompletesDelivery?
  }

  /** Steps that may change runs. */
  predicate OnRuns(step: Step) {
    step.Claims? || step.Completes? || step.Fails? || step.RecoversRuns? || step.Executes?
  }

  function EditTask(s: State, t: nat, after: Task): State {
    if t < |s.tasks| && Advances(s.tasks[t], after) then s.(tasks := s.tasks[t := after]) else s
  }

  ghost function Next(s: State, step: Step): State {
    match step
    case Elapse(n) => s.(now := s.now + n)
    case Edit(t, after) => EditTask(s, t, after)
    case Receives(m, cfg, delay) => Enqueue(s, m, cfg, delay)
    case Notifies(t, key, kind, cfg) => NotifyEngineering(s, t, key, kind, cfg)
    case Observes(t, n, cfg, delay) => NotifyObservation(s, t, n, cfg, delay)
    case Claims(q) => Claim(s, q)
    case Completes(r, t, d) => Complete(s, r, t, d)
    case Fails(r, superseded) => Fail(s, r, superseded)
    case RecoversRuns(locked) => RecoverRuns(s, locked)
    case Executes(a, x) => Execute(s, a, x)
    case ClaimsDelivery(a, cfg, permitted) => ClaimDelivery(s, a, cfg, permitted)
    case Posts(a) => Post(s, a)
    case FailsDelivery(a) => FailDelivery(s, a, a < |s.actions| && !s.actions[a].kind.RequestReview?)
    case CompletesDelivery(a, reference) => CompleteDelivery(s, a, reference)
    case ClaimsCheck(a) => ClaimReconciliation(s, a)
    case CompletesCheck(a, found) => CompleteReconciliation(s, a, found)
    case RecoversActions(locked) => RecoverActions(s, locked)
    case RequestsCheck(a) => RequestCheck(s, a)
  }

  /** Empty tables; tasks and clock are whatever they are. */
  predicate Initial(s: State) {
    s.events == [] && s.runs == [] && s.actions == [] && s.humans == []
    && s.deliveries == map[] && s.effects == [] && s.posts == []
  }

  /** State `i + 1` follows state `i` by step `i`. */
  ghost predicate Linked(states: seq<State>, steps: seq<Step>, i: int) {
    0 <= i < |steps| && i + 1 < |states| && states[i + 1] == Next(states[i], steps[i])
  }

  /** Any number of workers, in any interleaving: a run is any sequence of steps. */
  ghost predicate IsRun(states: seq<State>, steps: seq<Step>) {
    && |states| == |steps| + 1
    && Initial(states[0])
    && forall i :: 0 <= i < |steps| ==> Linked(states, steps, i)
  }
}
