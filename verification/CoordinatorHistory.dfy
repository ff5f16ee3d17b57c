/**
 What holds over whole runs of the coordinator: between any two moments of any interleaving.
 */
module CoordinatorHistory {
  import opened Prelude
  import opened CoordinatorProtocol
  import opened CoordinatorInvariant

  // -------------------------------------------------------- what never goes back

  ghost predicate TasksEvolve(a: seq<Task>, b: seq<Task>) {
    |a| == |b| && forall t :: 0 <= t < |a| ==> Advances(a[t], b[t])
  }

  /** Only status, run and availability of an event ever change. */
  predicate SameEvent(a: Event, b: Event) {
    a.(status := b.status, run := b.run, available := b.available) == b
  }

  /** A run that is neither claimed nor ready has ended for good. */
  predicate Ended(status: RunStatus) {
    !Busy(status)
  }

  /** Events are never lost, and an ended run keeps the events it holds. */
  ghost predicate EventsEvolve(a: seq<Event>, b: seq<Event>, runs: seq<Run>) {
    && |a| <= |b|
    && forall e :: 0 <= e < |a| ==>
         SameEvent(a[e], b[e])
         && (a[e].run.Some? && a[e].run.value < |runs| && Ended(runs[a[e].run.value].status) ==> b[e].run == a[e].run)
  }

  ghost predicate RunsEvolve(a: seq<Run>, b: seq<Run>) {
    && |a| <= |b|
    && forall r :: 0 <= r < |a| ==> SameRun(a[r], b[r]) && (Ended(a[r].status) ==> b[r] == a[r])
  }

  /** An effect's record is written once, an executed action stays executed. */
  predicate ActionEvolves(a: Action, b: Action) {
    && SameAction(a, b)
    && (a.recorded.Some? ==> b.recorded == a.recorded)
    && (a.status == Executed ==> b.status == Executed)
    && (Dispatched(a.status) ==> Dispatched(b.status))
    && (a.status in {Rejected, Superseded} ==> b.status == a.status)
    && (a.status == DeliveryPending ==> b.status == DeliveryPending || b.status == Rejected || Dispatched(b.status))
  }

  ghost predicate ActionsEvolve(a: seq<Action>, b: seq<Action>) {
    && |a| <= |b|
    && forall i :: 0 <= i < |a| ==> ActionEvolves(a[i], b[i])
  }

  /** An answer is given once; a withdrawn request stays withdrawn. */
  predicate HumanEvolves(a: HumanRequest, b: HumanRequest) {
    && a.(status := b.status, answer := b.answer) == b
    && (a.answer.Some? ==> b.answer == a.answer)
    && (a.status == Withdrawn ==> b.status == Withdrawn)
    && (a.status == Answered ==> b.status != Open)
  }

  ghost predicate HumansEvolve(a: seq<HumanRequest>, b: seq<HumanRequest>) {
    && |a| <= |b|
    && forall h :: 0 <= h < |a| ==> HumanEvolves(a[h], b[h])
  }

  ghost predicate Evolves(a: State, b: State) {
    && TasksEvolve(a.tasks, b.tasks)
    && EventsEvolve(a.events, b.events, a.runs)
    && RunsEvolve(a.runs, b.runs)
    && ActionsEvolve(a.actions, b.actions)
    && HumansEvolve(a.humans, b.humans)
    && a.now <= b.now
    && a.effects <= b.effects
    && a.posts <= b.posts
  }

  lemma EvolvesTrans(a: State, b: State, c: State)
    requires Evolves(a, b) && Evolves(b, c)
    ensures Evolves(a, c)
  {
    forall e | 0 <= e < |a.events|
      ensures SameEvent(a.events[e], c.events[e])
      ensures a.events[e].run.Some? && a.events[e].run.value < |a.runs| && Ended(a.runs[a.events[e].run.value].status)
        ==> c.events[e].run == a.events[e].run
    {
      assert SameEvent(a.events[e], b.events[e]) && SameEvent(b.events[e], c.events[e]);
    }
    forall t | 0 <= t < |a.tasks| ensures Advances(a.tasks[t], c.tasks[t]) {
      assert Advances(a.tasks[t], b.tasks[t]) && Advances(b.tasks[t], c.tasks[t]);
    }
    forall r | 0 <= r < |a.runs| ensures SameRun(a.runs[r], c.runs[r]) && (Ended(a.runs[r].status) ==> c.runs[r] == a.runs[r]) {
      assert SameRun(a.runs[r], b.runs[r]) && SameRun(b.runs[r], c.runs[r]);
    }
    forall i | 0 <= i < |a.actions| ensures ActionEvolves(a.actions[i], c.actions[i]) {
      assert ActionEvolves(a.actions[i], b.actions[i]) && ActionEvolves(b.actions[i], c.actions[i]);
    }
    forall h | 0 <= h < |a.humans| ensures HumanEvolves(a.humans[h], c.humans[h]) {
      assert HumanEvolves(a.humans[h], b.humans[h]) && HumanEvolves(b.humans[h], c.humans[h]);
    }
  }

  // -------------------------------------------------------------- step by step

  /** Nothing is held by a run that is still busy, except by that run's own transactions. */
  lemma BatchOfBusyRun(s: State, r: nat, events: seq<Event>)
    requires r < |s.runs| && Busy(s.runs[r].status)
    requires |events| == |s.events|
    requires forall e :: 0 <= e < |events| ==>
      SameEvent(s.events[e], events[e]) && (s.events[e].run != Some(r) ==> events[e] == s.events[e])
    ensures EventsEvolve(s.events, events, s.runs)
  {
  }

  /** Every table evolves into itself. */
  lemma Unchanged(s: State)
    ensures TasksEvolve(s.tasks, s.tasks) && EventsEvolve(s.events, s.events, s.runs) && RunsEvolve(s.runs, s.runs)
    ensures ActionsEvolve(s.actions, s.actions) && HumansEvolve(s.humans, s.humans)
  {
  }

  lemma ActionRowEvolves(actions: seq<Action>, a: nat, row: Action)
    requires a < |actions| && ActionEvolves(actions[a], row)
    ensures ActionsEvolve(actions, actions[a := row])
  {
  }

  /** Triage touches only queued events, which no run holds. */
  lemma TriagedEvolves(s: State, q: ClaimInput, t: nat, status: EventStatus)
    requires EventsFit(s.events, s.runs) && QueuedBatch(s, t, q.batch)
    ensures EventsEvolve(s.events, Triaged(s, q, |s.runs|, status), s.runs)
  {
    var events' := Triaged(s, q, |s.runs|, status);
    forall e | 0 <= e < |s.events|
      ensures SameEvent(s.events[e], events'[e]) && (s.events[e].run.Some? ==> events'[e].run == s.events[e].run)
    {
      if e in q.batch {
        InBatch(s, t, q.batch, e);
        QueuedIsUnheld(s, e);
      }
    }
  }

  lemma SuspensionEvolves(s: State, e: nat)
    requires Inv(s) && e < |s.events| && s.events[e].status == Queued
    ensures Evolves(s, s.(events := s.events[e := s.events[e].(status := Suspended)]))
  {
    Unchanged(s);
    QueuedIsUnheld(s, e);
  }

  lemma ClaimBatchEvolves(s: State, q: ClaimInput, t: nat)
    requires Inv(s) && t < |s.tasks| && QueuedBatch(s, t, q.batch) && Admitted(s, q, q.batch) != []
    ensures Evolves(s, ClaimBatch(s, q, t))
  {
    Unchanged(s);
    TriagedEvolves(s, q, t, if q.requirementKnown then Claimed else EventFailed);
  }

  lemma ClaimEvolves(s: State, q: ClaimInput)
    requires Inv(s)
    ensures Evolves(s, Claim(s, q))
  {
    if q.pick.Some? && ValidPick(s, q.pick.value) && q.taskFree {
      var t := s.events[q.pick.value].task;
      if t < |s.tasks| && !HasActiveRun(s, t) {
        ClaimFreeEvolves(s, q, t);
      }
    }
    Unchanged(s);
  }

  lemma ClaimFreeEvolves(s: State, q: ClaimInput, t: nat)
    requires Inv(s) && q.pick.Some? && ValidPick(s, q.pick.value) && q.taskFree && t == s.events[q.pick.value].task
    requires t < |s.tasks| && !HasActiveRun(s, t)
    ensures Evolves(s, Claim(s, q))
  {
    if !Coordinated(s.tasks[t]) {
      SuspensionEvolves(s, q.pick.value);
    } else if ValidBatch(s, t, q.batch, q.locked) {
      assert QueuedBatch(s, t, q.batch);
      TriagedEvolves(s, q, t, Claimed);
      Unchanged(s);
      if Admitted(s, q, q.batch) != [] {
        ClaimBatchEvolves(s, q, t);
      }
    } else {
      Unchanged(s);
    }
  }

  lemma CompleteFailEvolve(s: State, r: nat, t: nat, d: Decision, superseded: bool)
    requires Inv(s)
    ensures Evolves(s, Complete(s, r, t, d)) && Evolves(s, Fail(s, r, superseded))
  {
    Unchanged(s);
    if r < |s.runs| && s.runs[r].status == RunClaimed {
      BatchOfBusyRun(s, r, SetBatch(s.events, r, Processed));
      BatchOfBusyRun(s, r, SetBatch(s.events, r, EventFailed));
      BatchOfBusyRun(s, r, Requeue(s.events, r, s.now));
    }
  }

  lemma RecoverRunsEvolves(s: State, locked: set<nat>)
    requires Inv(s)
    ensures Evolves(s, RecoverRuns(s, locked))
  {
    Unchanged(s);
  }

  lemma AskedEvolves(s: State, a: nat, after: Task)
    requires HumansFit(s.humans) && a < |s.actions| && s.actions[a].task < |s.tasks|
    ensures HumansEvolve(s.humans, Asked(s, a, after))
  {
  }

  /** The rows that end with a run and its action. */
  lemma PairEvolves(s: State, a: nat, action: Action, run: Run)
    requires a < |s.actions| && s.actions[a].status in {Pending, WaitingEngineer} && s.actions[a].recorded.None?
    requires SameAction(s.actions[a], action) && action.run < |s.runs|
    requires s.runs[action.run].status == RunReady && SameRun(s.runs[action.run], run)
    ensures ActionsEvolve(s.actions, s.actions[a := action]) && RunsEvolve(s.runs, s.runs[action.run := run])
  {
    ActionRowEvolves(s.actions, a, action);
  }

  lemma SupersedeEvolves(s: State, a: nat)
    requires Inv(s) && a < |s.actions| && s.actions[a].status in {Pending, WaitingEngineer}
    requires s.actions[a].run < |s.runs|
    ensures Evolves(s, Supersede(s, a))
  {
    Unchanged(s);
    IntentFits(s, a);
    var r := s.actions[a].run;
    PairEvolves(s, a, s.actions[a].(status := Superseded), s.runs[r].(status := RunSuperseded));
    BatchOfBusyRun(s, r, Requeue(s.events, r, s.now));
  }

  lemma CommitEvolves(s: State, a: nat, after: Task, notices: seq<Notice>)
    requires Inv(s) && a < |s.actions| && s.actions[a].status in {Pending, WaitingEngineer}
    requires s.actions[a].run < |s.runs| && s.actions[a].task < |s.tasks| && s.actions[a].event < |s.events|
    requires Advances(s.tasks[s.actions[a].task], after)
    ensures Evolves(s, Commit(s, a, after, notices))
  {
    Unchanged(s);
    IntentFits(s, a);
    var done := Commit(s, a, after, notices);
    PairEvolves(s, a, done.actions[a], done.runs[s.actions[a].run]);
    AskedEvolves(s, a, after);
  }

  lemma ResolveEvolves(s: State, a: nat, outcome: Outcome)
    requires Inv(s) && a < |s.actions| && s.actions[a].status in {Pending, WaitingEngineer}
    requires s.actions[a].run < |s.runs| && s.actions[a].task < |s.tasks|
    requires outcome.Commits? ==> s.actions[a].event < |s.events|
    ensures Evolves(s, Resolve(s, a, outcome))
  {
    Unchanged(s);
    IntentFits(s, a);
    var action, run := s.actions[a], s.runs[s.actions[a].run];
    match outcome
    case News => SupersedeEvolves(s, a);
    case EngineerBusy => ActionRowEvolves(s.actions, a, action.(status := WaitingEngineer));
    case Invalid => PairEvolves(s, a, action.(status := Rejected), run.(status := RunRejected));
    case Commits(after, notices) =>
      if Advances(s.tasks[action.task], after) {
        CommitEvolves(s, a, after, notices);
      }
  }

  lemma ExecuteEvolves(s: State, a: nat, x: Surroundings)
    requires Inv(s)
    ensures Evolves(s, Execute(s, a, x))
  {
    Unchanged(s);
    if Executable(s, a, x) {
      IntentFits(s, a);
      SupersedeEvolves(s, a);
      ResolveEvolves(s, a, Weigh(s, a, x));
    }
  }

  lemma ClaimDeliveryEvolves(s: State, a: nat, cfg: Settings, permitted: set<nat>)
    ensures Evolves(s, ClaimDelivery(s, a, cfg, permitted)) && Evolves(s, Post(s, a))
  {
    Unchanged(s);
    if a < |s.actions| && s.actions[a].status == DeliveryPending {
      ActionRowEvolves(s.actions, a, ClaimDelivery(s, a, cfg, permitted).actions[a]);
    }
  }

  lemma FailDeliveryEvolves(s: State, a: nat, reconcile: bool)
    requires Inv(s)
    ensures Evolves(s, FailDelivery(s, a, reconcile))
  {
    Unchanged(s);
    if a in s.deliveries {
      assert DispatchedAt(s.actions, a);
      ActionRowEvolves(s.actions, a, FailDelivery(s, a, reconcile).actions[a]);
    }
  }

  lemma CompleteDeliveryEvolves(s: State, a: nat, reference: string)
    requires Inv(s)
    ensures Evolves(s, CompleteDelivery(s, a, reference))
  {
    Unchanged(s);
    if a in s.deliveries {
      assert DispatchedAt(s.actions, a);
      ActionRowEvolves(s.actions, a, CompleteDelivery(s, a, reference).actions[a]);
    }
  }

  lemma CheckEvolves(s: State, a: nat, found: Option<string>)
    ensures Evolves(s, ClaimReconciliation(s, a)) && Evolves(s, CompleteReconciliation(s, a, found))
    ensures Evolves(s, RequestCheck(s, a))
  {
    Unchanged(s);
    if a < |s.actions| {
      ActionRowEvolves(s.actions, a, ClaimReconciliation(s, a).actions[a]);
      ActionRowEvolves(s.actions, a, CompleteReconciliation(s, a, found).actions[a]);
      ActionRowEvolves(s.actions, a, RequestCheck(s, a).actions[a]);
    }
  }

  lemma RecoverActionsEvolves(s: State, locked: set<nat>)
    ensures Evolves(s, RecoverActions(s, locked))
  {
    Unchanged(s);
  }

  /** A new event leaves everything else as it was. */
  lemma InsertEvolves(s: State, e: Event)
    ensures Evolves(s, s.(events := s.events + [e]))
  {
    Unchanged(s);
  }

  lemma AnswerEvolves(s: State, h: nat, answer: string, e: Event)
    requires Inv(s) && h < |s.humans| && s.humans[h].status == Open
    ensures Evolves(s, s.(humans := s.humans[h := s.humans[h].(status := Answered, answer := Some(answer))], events := s.events + [e]))
  {
    InsertEvolves(s, e);
    Unchanged(s);
  }

  lemma ReceiveEvolves(s: State, m: Incoming, delay: nat)
    requires Inv(s) && m.task < |s.tasks|
    ensures Evolves(s, Receive(s, m, delay))
  {
    var about := Addressed(s, m);
    if about.Some? && LiveFor(s.humans, m.task, s.tasks[m.task], about.value) {
      var e := InboundEvent(s, m, "HUMAN_RESPONSE", about, Queued, delay);
      InsertEvolves(s, e);
      if s.humans[about.value].status == Open {
        AnswerEvolves(s, about.value, Kept(m.body), e);
      }
    } else {
      InsertEvolves(s, InboundEvent(s, m, m.kind, about, Queued, delay));
    }
  }

  lemma EchoEvolves(s: State, m: Incoming, a: nat, e: Event)
    requires Inv(s) && EchoOf(s, m, a)
    ensures Evolves(s, s.(actions := s.actions[a := s.actions[a].(status := Executed, reference := Some(m.effect))], events := s.events + [e]))
  {
    InsertEvolves(s, e);
    ActionRowEvolves(s.actions, a, s.actions[a].(status := Executed, reference := Some(m.effect)));
  }

  lemma ArriveEvolves(s: State, m: Incoming, cfg: Settings, delay: nat)
    requires Inv(s) && m.task < |s.tasks|
    ensures Evolves(s, Arrive(s, m, cfg, delay))
  {
    var echo := FindEcho(s, m);
    if echo.Some? {
      var e := InboundEvent(s, m, "EFFECT_CONFIRMED", None, Echo, 0);
      InsertEvolves(s, e);
      EchoEvolves(s, m, echo.value, e);
    } else if !m.permitted {
      InsertEvolves(s, InboundEvent(s, m, m.kind, m.humanRequest, Unauthorized, delay));
    } else if ModeOf(cfg, m.provider) == Active {
      ReceiveEvolves(s, m, delay);
    } else {
      InsertEvolves(s, InboundEvent(s, m, m.kind, m.humanRequest, Queued, delay));
    }
  }

  lemma EnqueueEvolves(s: State, m: Incoming, cfg: Settings, delay: nat)
    requires Inv(s)
    ensures Evolves(s, Enqueue(s, m, cfg, delay))
  {
    Unchanged(s);
    if m.task < |s.tasks| {
      ArriveEvolves(s, m, cfg, delay);
    }
  }

  lemma EnvironmentEvolves(s: State, n: nat, t: nat, notice: Notice, delay: nat)
    ensures Evolves(s, s.(now := s.now + n)) && Evolves(s, Notify(s, t, notice, delay))
  {
    Unchanged(s);
  }

  lemma NotifyEvolves(s: State, t: nat, key: string, kind: string, cfg: Settings)
    ensures Evolves(s, NotifyEngineering(s, t, key, kind, cfg))
  {
    var previous := LastOutside(s.events, t);
    if previous.Some? {
      EnvironmentEvolves(s, 0, t, Notice(key, kind, s.events[previous.value].provider), 0);
    }
    EnvironmentEvolves(s, 0, t, Notice("", "", ""), 0);
    assert s.(now := s.now + 0) == s;
  }

  lemma EditEvolves(s: State, t: nat, after: Task)
    ensures Evolves(s, EditTask(s, t, after))
  {
    Unchanged(s);
  }

  lemma InboxStepEvolves(s: State, step: Step)
    requires Inv(s) && OnInbox(step)
    ensures Evolves(s, Next(s, step))
  {
    match step
    case Elapse(n) => EnvironmentEvolves(s, n, 0, Notice("", "", ""), 0);
    case Edit(t, after) => EditEvolves(s, t, after);
    case Receives(m, cfg, delay) => EnqueueEvolves(s, m, cfg, delay);
    case Notifies(t, key, kind, cfg) => NotifyEvolves(s, t, key, kind, cfg);
    case Observes(t, n, cfg, delay) => EnvironmentEvolves(s, 0, t, n, delay);
    case _ =>
  }

  lemma RunStepEvolves(s: State, step: Step)
    requires Inv(s) && OnRuns(step)
    ensures Evolves(s, Next(s, step))
  {
    match step
    case Claims(q) => ClaimEvolves(s, q);
    case Completes(r, t, d) => CompleteFailEvolve(s, r, t, d, false);
    case Fails(r, superseded) => CompleteFailEvolve(s, r, 0, Decision(Wait, ""), superseded);
    case RecoversRuns(locked) => RecoverRunsEvolves(s, locked);
    case Executes(a, x) => ExecuteEvolves(s, a, x);
    case _ =>
  }

  lemma DeliveryStepEvolves(s: State, step: Step)
    requires Inv(s) && OnDelivery(step)
    ensures Evolves(s, Next(s, step))
  {
    match step
    case ClaimsDelivery(a, cfg, permitted) => ClaimDeliveryEvolves(s, a, cfg, permitted);
    case Posts(a) => ClaimDeliveryEvolves(s, a, Settings(Off, {}), {});
    case FailsDelivery(a) => FailDeliveryEvolves(s, a, a < |s.actions| && !s.actions[a].kind.RequestReview?);
    case CompletesDelivery(a, reference) => CompleteDeliveryEvolves(s, a, reference);
    case _ =>
  }

  lemma CheckStepEvolves(s: State, step: Step)
    requires Inv(s) && !OnInbox(step) && !OnRuns(step) && !OnDelivery(step)
    ensures Evolves(s, Next(s, step))
  {
    match step
    case ClaimsCheck(a) => CheckEvolves(s, a, None);
    case CompletesCheck(a, found) => CheckEvolves(s, a, found);
    case RecoversActions(locked) => RecoverActionsEvolves(s, locked);
    case RequestsCheck(a) => CheckEvolves(s, a, None);
    case _ =>
  }

  lemma StepEvolves(s: State, step: Step)
    requires Inv(s)
    ensures Evolves(s, Next(s, step))
  {
    if OnInbox(step) {
      InboxStepEvolves(s, step);
    } else if OnRuns(step) {
      RunStepEvolves(s, step);
    } else if OnDelivery(step) {
      DeliveryStepEvolves(s, step);
    } else {
      CheckStepEvolves(s, step);
    }
  }

  lemma EvolvesAt(states: seq<State>, steps: seq<Step>, m: nat)
    requires IsRun(states, steps) && m < |steps|
    ensures Evolves(states[m], states[m + 1])
  {
    RunKeeps(states, steps, m);
    StepEvolves(states[m], steps[m]);
    assert Linked(states, steps, m);
  }

  /** Between any two moments of a run the state evolves. */
  lemma {:induction false} RunEvolves(states: seq<State>, steps: seq<Step>, i: nat, j: nat)
    requires IsRun(states, steps) && i <= j < |states|
    ensures Evolves(states[i], states[j])
    decreases j - i
  {
    if i < j {
      RunEvolves(states, steps, i, j - 1);
      EvolvesAt(states, steps, j - 1);
      EvolvesTrans(states[i], states[j - 1], states[j]);
    }
  }

  // -------------------------------------------------------- events and their runs

  /** An event stays in the table for ever, and is free exactly when no run that still counts holds it. */
  lemma EventFollowsItsRun(states: seq<State>, steps: seq<Step>, i: nat, j: nat, e: nat)
    requires IsRun(states, steps) && i <= j < |states| && e < |states[i].events|
    ensures e < |states[j].events| && SameEvent(states[i].events[e], states[j].events[e])
    ensures var held := states[j].events[e];
            match held.run
            case None => Unheld(held.status)
            case Some(r) => r < |states[j].runs| && states[j].runs[r].task == held.task
                            && StatusUnder(states[j].runs[r].status) == Some(held.status)
  {
    RunEvolves(states, steps, i, j);
    RunKeeps(states, steps, j);
    assert EventFits(states[j].events[e], states[j].runs);
  }

  /** When a run is superseded, its whole batch is queued again in the same transaction. */
  lemma SupersededBatchReturns(s: State, step: Step, r: nat, e: nat)
    requires Inv(s) && r < |s.runs| && s.runs[r].status != RunSuperseded
    requires r < |Next(s, step).runs| && Next(s, step).runs[r].status == RunSuperseded
    requires e < |s.events| && s.events[e].run == Some(r)
    ensures e < |Next(s, step).events|
    ensures Next(s, step).events[e] == s.events[e].(status := Queued, run := None, available := s.now)
  {
    if step.Executes? {
      ExecutionReturnsBatch(s, step.action, step.around, r, e);
    } else if !step.Fails? {
      NoOtherSupersedes(s, step, r);
    }
  }

  lemma ResolveReturnsBatch(s: State, a: nat, outcome: Outcome, r: nat, e: nat)
    requires Inv(s) && r < |s.runs| && s.runs[r].status != RunSuperseded
    requires a < |s.actions| && s.actions[a].run < |s.runs| && s.actions[a].task < |s.tasks|
    requires outcome.Commits? ==> s.actions[a].event < |s.events|
    requires r < |Resolve(s, a, outcome).runs| && Resolve(s, a, outcome).runs[r].status == RunSuperseded
    requires e < |s.events| && s.events[e].run == Some(r)
    ensures e < |Resolve(s, a, outcome).events|
    ensures Resolve(s, a, outcome).events[e] == s.events[e].(status := Queued, run := None, available := s.now)
  {
  }

  lemma ExecutionReturnsBatch(s: State, a: nat, x: Surroundings, r: nat, e: nat)
    requires Inv(s) && r < |s.runs| && s.runs[r].status != RunSuperseded
    requires r < |Execute(s, a, x).runs| && Execute(s, a, x).runs[r].status == RunSuperseded
    requires e < |s.events| && s.events[e].run == Some(r)
    ensures e < |Execute(s, a, x).events|
    ensures Execute(s, a, x).events[e] == s.events[e].(status := Queued, run := None, available := s.now)
  {
    if Executable(s, a, x) {
      IntentFits(s, a);
      if Execute(s, a, x) == Resolve(s, a, Weigh(s, a, x)) {
        ResolveReturnsBatch(s, a, Weigh(s, a, x), r, e);
      }
    }
  }

  lemma NoOtherSupersedes(s: State, step: Step, r: nat)
    requires r < |s.runs| && s.runs[r].status != RunSuperseded && !step.Fails? && !step.Executes?
    ensures r < |Next(s, step).runs| && Next(s, step).runs[r].status != RunSuperseded
  {
    if !OnRuns(step) {
      RunsStay(s, step);
    }
  }

  /** Steps on the inbox and on deliveries leave the table of runs alone. */
  lemma RunsStay(s: State, step: Step)
    requires !OnRuns(step)
    ensures Next(s, step).runs == s.runs
  {
  }

  /** Over the whole history an event belongs to at most one completed run. */
  lemma AppliedAtMostOnce(states: seq<State>, steps: seq<Step>, i: nat, j: nat, e: nat, r: nat, q: nat)
    requires IsRun(states, steps) && i <= j < |states|
    requires e < |states[i].events| && states[i].events[e].run == Some(r)
    requires r < |states[i].runs| && states[i].runs[r].status == RunCompleted
    requires e < |states[j].events| && states[j].events[e].run == Some(q)
    requires q < |states[j].runs| && states[j].runs[q].status == RunCompleted
    ensures r == q
  {
    RunEvolves(states, steps, i, j);
  }

  // --------------------------------------------- effects meet their own situation

  /** Only `execute_one` adds an effect, and its guards held in the state it started from. */
  lemma OnlyExecutionCommits(s: State, step: Step)
    requires Inv(s) && Next(s, step).effects != s.effects
    ensures step.Executes? && CommitsFrom(s, step.action, Next(s, step))
  {
    if step.Executes? {
      ExecutionCommits(s, step.action, step.around);
    } else {
      NoOtherCommits(s, step);
    }
  }

  /** The guards under which an effect commits, and what commits. */
  ghost predicate CommitsFrom(s: State, action: nat, after: State) {
    && action < |s.actions|
    && var a := s.actions[action];
    && a.run < |s.runs| && a.task < |s.tasks| && a.recorded.None?
    && s.runs[a.run].status == RunReady && s.runs[a.run].task == a.task
    && SameVersions(s.tasks[a.task], s.runs[a.run].lifecycle, s.runs[a.run].requirement)
    && !NewerQueued(s, a.task, s.runs[a.run].created)
    && |after.effects| == |s.effects| + 1 && after.effects[|s.effects|].action == action
    && after.tasks == s.tasks[a.task := after.effects[|s.effects|].after]
  }

  lemma ExecutionCommits(s: State, a: nat, x: Surroundings)
    requires Inv(s) && Execute(s, a, x).effects != s.effects
    ensures CommitsFrom(s, a, Execute(s, a, x))
  {
    IntentFits(s, a);
  }

  lemma NoOtherCommits(s: State, step: Step)
    requires !step.Executes?
    ensures Next(s, step).effects == s.effects
  {
  }

  /** A new run records the versions its task has at that moment. */
  lemma RunsAreBornCurrent(s: State, step: Step, r: nat)
    requires Inv(s) && |s.runs| <= r < |Next(s, step).runs|
    ensures r == |s.runs| && step.Claims?
    ensures var run := Next(s, step).runs[r];
            run.task < |s.tasks| && Next(s, step).tasks == s.tasks
            && SameVersions(s.tasks[run.task], run.lifecycle, run.requirement)
  {
    if !step.Claims? {
      NoOtherBirth(s, step);
    }
  }

  lemma NoOtherBirth(s: State, step: Step)
    requires Inv(s) && !step.Claims?
    ensures |Next(s, step).runs| == |s.runs|
  {
    if !OnRuns(step) {
      RunsStay(s, step);
    } else if step.Executes? && step.action < |s.actions| && s.actions[step.action].status in {Pending, WaitingEngineer} {
      IntentFits(s, step.action);
    }
  }

  /** The step at which run `r` was claimed. */
  lemma {:induction false} BirthOf(states: seq<State>, steps: seq<Step>, i: nat, r: nat) returns (k: nat)
    requires IsRun(states, steps) && i < |states| && r < |states[i].runs|
    ensures k < i && |states[k].runs| <= r < |states[k + 1].runs|
  {
    if r < |states[i - 1].runs| {
      k := BirthOf(states, steps, i - 1, r);
    } else {
      k := i - 1;
    }
  }

  /** The task's versions are the same at every moment from `k` to `i`. */
  ghost predicate VersionsFrozen(states: seq<State>, t: nat, k: nat, i: nat, lifecycle: nat, requirement: nat) {
    forall m :: k <= m <= i && m < |states| ==>
      t < |states[m].tasks| && SameVersions(states[m].tasks[t], lifecycle, requirement)
  }

  lemma FrozenBetween(states: seq<State>, steps: seq<Step>, k: nat, i: nat, t: nat, lifecycle: nat, requirement: nat)
    requires IsRun(states, steps) && k <= i < |states|
    requires t < |states[k].tasks| && SameVersions(states[k].tasks[t], lifecycle, requirement)
    requires t < |states[i].tasks| && SameVersions(states[i].tasks[t], lifecycle, requirement)
    ensures VersionsFrozen(states, t, k, i, lifecycle, requirement)
  {
    forall m | k <= m <= i && m < |states|
      ensures t < |states[m].tasks| && SameVersions(states[m].tasks[t], lifecycle, requirement)
    {
      RunEvolves(states, steps, k, m);
      RunEvolves(states, steps, m, i);
      assert Advances(states[k].tasks[t], states[m].tasks[t]) && Advances(states[m].tasks[t], states[i].tasks[t]);
    }
  }

  /**
   A committed effect was decided on the situation it changes: from the claim of its run to
   the commit the task's versions never moved, and no newer message waited at the commit.
   */
  lemma EffectMeetsItsSituation(states: seq<State>, steps: seq<Step>, i: nat) returns (k: nat)
    requires IsRun(states, steps) && i < |steps| && states[i + 1].effects != states[i].effects
    ensures steps[i].Executes? && steps[i].action < |states[i].actions|
    ensures var a := states[i].actions[steps[i].action];
            && a.run < |states[i].runs| && k < i && steps[k].Claims?
            && |states[k].runs| == a.run && a.run < |states[k + 1].runs|
            && VersionsFrozen(states, a.task, k, i, states[i].runs[a.run].lifecycle, states[i].runs[a.run].requirement)
            && !NewerQueued(states[i], a.task, states[i].runs[a.run].created)
  {
    CommitAt(states, steps, i);
    var a := states[i].actions[steps[i].action];
    k := BirthOf(states, steps, i, a.run);
    BirthAt(states, steps, k, a.run);
    RunEvolves(states, steps, k + 1, i);
    assert SameRun(states[k + 1].runs[a.run], states[i].runs[a.run]);
    FrozenBetween(states, steps, k, i, a.task, states[i].runs[a.run].lifecycle, states[i].runs[a.run].requirement);
  }

  /** A step of a run that changes the effects commits one, under its guards. */
  lemma CommitAt(states: seq<State>, steps: seq<Step>, i: nat)
    requires IsRun(states, steps) && i < |steps| && states[i + 1].effects != states[i].effects
    ensures steps[i].Executes? && CommitsFrom(states[i], steps[i].action, states[i + 1])
  {
    RunKeeps(states, steps, i);
    assert Linked(states, steps, i);
    OnlyExecutionCommits(states[i], steps[i]);
  }

  /** A step of a run that adds run `r` is its claim. */
  lemma BirthAt(states: seq<State>, steps: seq<Step>, k: nat, r: nat)
    requires IsRun(states, steps) && k < |steps| && |states[k].runs| <= r < |states[k + 1].runs|
    ensures r == |states[k].runs| && steps[k].Claims?
    ensures var run := states[k + 1].runs[r];
            run.task < |states[k].tasks| && states[k + 1].tasks == states[k].tasks
            && SameVersions(states[k].tasks[run.task], run.lifecycle, run.requirement)
  {
    RunKeeps(states, steps, k);
    assert Linked(states, steps, k);
    RunsAreBornCurrent(states[k], steps[k], r);
  }

  /** No action, and so no run, ever has two effects. */
  lemma NoEffectReplayed(states: seq<State>, steps: seq<Step>, i: nat, j: nat)
    requires IsRun(states, steps) && i < j < |steps|
    requires states[i + 1].effects != states[i].effects && states[j + 1].effects != states[j].effects
    ensures steps[i].Executes? && steps[j].Executes? && steps[i].action != steps[j].action
    ensures steps[i].action < |states[j].actions| && steps[j].action < |states[j].actions|
    ensures states[j].actions[steps[i].action].run != states[j].actions[steps[j].action].run
  {
    CommitAt(states, steps, i);
    CommitAt(states, steps, j);
    CommitIsRecorded(states, steps, i);
    RunKeeps(states, steps, j);
    RunEvolves(states, steps, i + 1, j);
    var a, b := steps[i].action, steps[j].action;
    assert ActionEvolves(states[i + 1].actions[a], states[j].actions[a]);
    OneActionPerRun(states[j], a, b);
  }

  /** A committed effect leaves its record on the action. */
  lemma CommitIsRecorded(states: seq<State>, steps: seq<Step>, i: nat)
    requires IsRun(states, steps) && i < |steps| && states[i + 1].effects != states[i].effects
    ensures steps[i].Executes? && steps[i].action < |states[i + 1].actions|
    ensures states[i + 1].actions[steps[i].action].recorded.Some?
  {
    CommitAt(states, steps, i);
    RunKeeps(states, steps, i + 1);
    var n := |states[i].effects|;
    assert EffectSound(states[i + 1].effects[n], states[i + 1].actions, states[i + 1].runs);
  }

  lemma OneActionPerRun(s: State, a: nat, b: nat)
    requires Inv(s) && a < |s.actions| && b < |s.actions| && a != b
    ensures s.actions[a].run != s.actions[b].run
  {
  }

  // --------------------------------------------------------------- deliveries

  /** The step at which the effect of action `a` was committed. */
  lemma {:induction false} CommitOf(states: seq<State>, steps: seq<Step>, i: nat, a: nat) returns (k: nat)
    requires IsRun(states, steps) && i < |states| && a < |states[i].actions| && states[i].actions[a].recorded.Some?
    ensures k < i && states[k + 1].effects != states[k].effects && steps[k].Executes? && steps[k].action == a
    ensures a < |states[k + 1].actions| && states[k + 1].actions[a].recorded == states[i].actions[a].recorded
  {
    RecordedBefore(states, steps, i - 1, a);
    if a < |states[i - 1].actions| && states[i - 1].actions[a].recorded.Some? {
      k := CommitOf(states, steps, i - 1, a);
    } else {
      k := i - 1;
    }
  }

  /** A record was there before, or this step committed its effect. */
  lemma RecordedBefore(states: seq<State>, steps: seq<Step>, i: nat, a: nat)
    requires IsRun(states, steps) && i < |steps| && a < |states[i + 1].actions| && states[i + 1].actions[a].recorded.Some?
    ensures a < |states[i].actions| && states[i].actions[a].recorded.Some? ==>
      states[i].actions[a].recorded == states[i + 1].actions[a].recorded
    ensures !(a < |states[i].actions| && states[i].actions[a].recorded.Some?) ==>
      steps[i].Executes? && steps[i].action == a && states[i + 1].effects != states[i].effects
  {
    RunKeeps(states, steps, i);
    if a < |states[i].actions| && states[i].actions[a].recorded.Some? {
      RunEvolves(states, steps, i, i + 1);
    } else {
      assert Linked(states, steps, i);
      RecordsNeedEffects(states[i], steps[i], a);
    }
  }

  lemma RecordsNeedEffects(s: State, step: Step, a: nat)
    requires Inv(s) && (a < |s.actions| ==> s.actions[a].recorded.None?)
    requires a < |Next(s, step).actions| && Next(s, step).actions[a].recorded.Some?
    ensures step.Executes? && step.action == a && Next(s, step).effects != s.effects
  {
    if step.Executes? {
      ExecutionRecords(s, step.action, step.around, a);
    } else {
      NoOtherRecords(s, step, a);
    }
  }

  /** Executing `b` writes a record only into `b`, and only with an effect. */
  lemma ExecutionRecords(s: State, b: nat, x: Surroundings, a: nat)
    requires a < |Execute(s, b, x).actions|
    ensures a < |s.actions|
    ensures Execute(s, b, x).actions[a].recorded == s.actions[a].recorded
         || (a == b && |Execute(s, b, x).effects| > |s.effects|)
  {
    if Executable(s, b, x) && s.actions[b].run < |s.runs| && s.actions[b].task < |s.tasks| {
      if SameVersions(s.tasks[s.actions[b].task], s.runs[s.actions[b].run].lifecycle, s.runs[s.actions[b].run].requirement) {
        match Weigh(s, b, x)
        case News =>
        case EngineerBusy =>
        case Invalid =>
        case Commits(after, notices) =>
      }
    }
  }

  lemma NoOtherRecords(s: State, step: Step, a: nat)
    requires !step.Executes? && a < |Next(s, step).actions|
    ensures Next(s, step).actions[a].recorded.Some? ==> a < |s.actions| && s.actions[a].recorded.Some?
  {
  }

  lemma HoldersClaimed(states: seq<State>, steps: seq<Step>, i: nat, a: nat)
    requires IsRun(states, steps) && i < |steps| && a in states[i + 1].deliveries && a !in states[i].deliveries
    ensures steps[i].ClaimsDelivery? && steps[i].action == a
    ensures a < |states[i].actions| && states[i].actions[a].status == DeliveryPending
    ensures Deliverable(states[i], a, steps[i].cfg, steps[i].permitted)
  {
    assert Linked(states, steps, i);
  }

  /** A worker holds a delivery only after a claim whose checks passed. */
  lemma {:induction false} ClaimOf(states: seq<State>, steps: seq<Step>, i: nat, a: nat) returns (c: nat)
    requires IsRun(states, steps) && i < |states| && a in states[i].deliveries
    ensures c < i && steps[c].ClaimsDelivery? && steps[c].action == a
    ensures a < |states[c].actions| && states[c].actions[a].status == DeliveryPending
    ensures Deliverable(states[c], a, steps[c].cfg, steps[c].permitted)
  {
    if a in states[i - 1].deliveries {
      c := ClaimOf(states, steps, i - 1, a);
    } else {
      HoldersClaimed(states, steps, i - 1, a);
      c := i - 1;
    }
  }

  /** An action is sent to the provider at most once, whatever crashes, times out or arrives late. */
  lemma PostedAtMostOnce(states: seq<State>, steps: seq<Step>, i: nat, j: nat, a: nat)
    requires IsRun(states, steps) && i < j < |steps|
    requires steps[i] == Posts(a) && steps[j] == Posts(a) && states[i + 1].posts != states[i].posts
    ensures states[j + 1].posts == states[j].posts
  {
    PostAt(states, steps, i, a);
    RunEvolves(states, steps, i + 1, j);
    var n := |states[i].posts|;
    assert states[i + 1].posts[n] == a && states[j].posts[n] == a;
    assert a in states[j].posts;
    PostAt(states, steps, j, a);
  }

  /** A step that posts had a held delivery that was never posted; otherwise nothing is posted. */
  lemma PostAt(states: seq<State>, steps: seq<Step>, i: nat, a: nat)
    requires IsRun(states, steps) && i < |steps| && steps[i] == Posts(a)
    ensures states[i + 1].posts != states[i].posts ==>
      a in states[i].deliveries && a !in states[i].posts && states[i + 1].posts == states[i].posts + [a]
  {
    RunKeeps(states, steps, i);
    assert Linked(states, steps, i);
  }

  /**
   A posted message was claimed, before, from an action whose effect had been committed before
   that; from just after the effect to the claim the task's versions never moved.
   */
  lemma PostedForItsEffect(states: seq<State>, steps: seq<Step>, i: nat, a: nat) returns (k: nat, c: nat)
    requires IsRun(states, steps) && i < |steps|
    requires steps[i] == Posts(a) && states[i + 1].posts != states[i].posts
    ensures k < c < i && steps[k].Executes? && steps[k].action == a && steps[c].ClaimsDelivery? && steps[c].action == a
    ensures a < |states[c].actions| && states[c].actions[a].recorded.Some?
    ensures var recorded := states[c].actions[a].recorded.value;
            VersionsFrozen(states, states[c].actions[a].task, k + 1, c, recorded.lifecycle, recorded.requirement)
  {
    PostAt(states, steps, i, a);
    c := ClaimOf(states, steps, i, a);
    k := CommitOf(states, steps, c, a);
    CommitAt(states, steps, k);
    RunKeeps(states, steps, k + 1);
    RunEvolves(states, steps, k, k + 1);
    RunEvolves(states, steps, k + 1, c);
    var n := |states[k].effects|;
    assert EffectSound(states[k + 1].effects[n], states[k + 1].actions, states[k + 1].runs);
    assert ActionEvolves(states[k].actions[a], states[k + 1].actions[a]);
    assert ActionEvolves(states[k + 1].actions[a], states[c].actions[a]);
    var t, recorded := states[c].actions[a].task, states[c].actions[a].recorded.value;
    FrozenBetween(states, steps, k + 1, c, t, recorded.lifecycle, recorded.requirement);
  }

  /** Step `m` moves a version of the task. */
  ghost predicate Moves(states: seq<State>, t: nat, m: int) {
    && 0 <= m && m + 1 < |states| && t < |states[m].tasks| && t < |states[m + 1].tasks|
    && !SameVersions(states[m + 1].tasks[t], states[m].tasks[t].lifecycle, states[m].tasks[t].requirement)
  }

  lemma {:induction false} UnmovedVersions(states: seq<State>, steps: seq<Step>, c: nat, i: nat, t: nat)
    requires IsRun(states, steps) && c <= i < |states| && t < |states[c].tasks|
    requires forall m :: c <= m < i ==> !Moves(states, t, m)
    ensures t < |states[i].tasks| && SameVersions(states[i].tasks[t], states[c].tasks[t].lifecycle, states[c].tasks[t].requirement)
    decreases i - c
  {
    if c < i {
      UnmovedVersions(states, steps, c, i - 1, t);
      RunEvolves(states, steps, i - 1, i);
      assert !Moves(states, t, i - 1);
    }
  }

  /**
   A message is sent to the situation of its effect exactly if nothing moved the task's versions
   between the claim of the delivery, where they are checked, and the sending, where they are not.
   */
  lemma PostMeetsItsEffectExactly(states: seq<State>, steps: seq<Step>, i: nat, a: nat) returns (c: nat)
    requires IsRun(states, steps) && i < |steps|
    requires steps[i] == Posts(a) && states[i + 1].posts != states[i].posts
    ensures c < i && steps[c].ClaimsDelivery? && steps[c].action == a
    ensures a < |states[c].actions| && states[c].actions[a].recorded.Some? && states[c].actions[a].task < |states[i].tasks|
    ensures var t, recorded := states[c].actions[a].task, states[c].actions[a].recorded.value;
            SameVersions(states[i].tasks[t], recorded.lifecycle, recorded.requirement) <==> forall m :: c <= m < i ==> !Moves(states, t, m)
  {
    PostAt(states, steps, i, a);
    c := ClaimOf(states, steps, i, a);
    RunEvolves(states, steps, c, i);
    var t, recorded := states[c].actions[a].task, states[c].actions[a].recorded.value;
    if SameVersions(states[i].tasks[t], recorded.lifecycle, recorded.requirement) {
      FrozenBetween(states, steps, c, i, t, recorded.lifecycle, recorded.requirement);
      forall m | c <= m < i ensures !Moves(states, t, m) {
        assert SameVersions(states[m].tasks[t], recorded.lifecycle, recorded.requirement);
        assert SameVersions(states[m + 1].tasks[t], recorded.lifecycle, recorded.requirement);
      }
    }
    if forall m :: c <= m < i ==> !Moves(states, t, m) {
      UnmovedVersions(states, steps, c, i, t);
    }
  }

  /** An executed delivery stays executed, and a real provider reference is stored only there. */
  lemma ExecutedForEver(states: seq<State>, steps: seq<Step>, i: nat, j: nat, a: nat)
    requires IsRun(states, steps) && i <= j < |states| && a < |states[i].actions|
    ensures a < |states[j].actions|
    ensures states[i].actions[a].status == Executed ==> states[j].actions[a].status == Executed
    ensures var reference := states[i].actions[a].reference;
            reference.Some? && reference.value != "" ==> states[j].actions[a].status == Executed
  {
    RunEvolves(states, steps, i, j);
    RunKeeps(states, steps, i);
    assert DeliveryFits(states[i].actions[a]);
    assert ActionEvolves(states[i].actions[a], states[j].actions[a]);
  }

  /** A check confirms exactly with a nonempty reference; an empty one is stored beside UNKNOWN. */
  lemma CheckConfirmsNonemptyOnly(s: State, a: nat, found: Option<string>)
    requires Inv(s) && a < |s.actions| && s.actions[a].status == Reconciling
    ensures var row := CompleteReconciliation(s, a, found).actions[a];
            && row.reference == found
            && (row.status == Executed <==> found.Some? && found.value != "")
            && (row.status != Executed ==> row.status == Unknown && !row.reconcile == !s.actions[a].reconcile)
  {
    assert DeliveryFits(s.actions[a]);
  }

  // --------------------------------------------------------------- answers

  /** The answer to a human request is given once and is never replaced. */
  lemma AnswersAreFinal(states: seq<State>, steps: seq<Step>, i: nat, j: nat, h: nat)
    requires IsRun(states, steps) && i <= j < |states| && h < |states[i].humans|
    requires states[i].humans[h].answer.Some?
    ensures h < |states[j].humans| && states[j].humans[h].answer == states[i].humans[h].answer
    ensures states[j].humans[h].status != Open
  {
    RunEvolves(states, steps, i, j);
    RunKeeps(states, steps, i);
    RunKeeps(states, steps, j);
    assert HumanEvolves(states[i].humans[h], states[j].humans[h]);
  }

  /** A task never has two live requests at its present versions. */
  lemma OneLiveQuestion(states: seq<State>, steps: seq<Step>, i: nat, t: nat, g: nat, h: nat)
    requires IsRun(states, steps) && i < |states| && t < |states[i].tasks|
    requires LiveFor(states[i].humans, t, states[i].tasks[t], g) && LiveFor(states[i].humans, t, states[i].tasks[t], h)
    ensures g == h
  {
    RunKeeps(states, steps, i);
    assert SameQuestion(states[i].humans[g], states[i].humans[h]);
    assert SameQuestion(states[i].humans[h], states[i].humans[g]);
  }
}
