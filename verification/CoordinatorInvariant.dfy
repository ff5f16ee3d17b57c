/**
 The invariant that couples events, runs, actions and human requests, kept by every
 transaction of every worker, whatever the interleaving.
 */
module CoordinatorInvariant {
  import opened Prelude
  import opened CoordinatorProtocol

  // ------------------------------------------------------------- the invariant

  /** Every foreign key of events, runs and requests leads to a row; a run was never made while switched off. */
  ghost predicate TablesLinked(tasks: seq<Task>, events: seq<Event>, runs: seq<Run>, humans: seq<HumanRequest>) {
    && (forall e :: 0 <= e < |events| ==> events[e].task < |tasks|)
    && (forall r :: 0 <= r < |runs| ==> runs[r].task < |tasks| && runs[r].mode != Off)
    && (forall h :: 0 <= h < |humans| ==> humans[h].task < |tasks|)
  }

  /** An action belongs to its run's task and keeps its run's trigger. */
  predicate ActionLinked(a: Action, runs: seq<Run>) {
    a.run < |runs| && a.task == runs[a.run].task && a.event == runs[a.run].trigger
  }

  ghost predicate ActionsLinked(actions: seq<Action>, runs: seq<Run>) {
    forall a :: 0 <= a < |actions| ==> ActionLinked(actions[a], runs)
  }

  /** At most one run of a task is CLAIMED or READY. */
  ghost predicate OneActiveRun(runs: seq<Run>) {
    forall r1, r2 :: 0 <= r1 < r2 < |runs| && runs[r1].task == runs[r2].task ==>
      !(Busy(runs[r1].status) && Busy(runs[r2].status))
  }

  /** The status that a run's status dictates for the events it holds; a superseded run holds none. */
  function StatusUnder(status: RunStatus): Option<EventStatus> {
    match status
    case RunClaimed => Some(Claimed)
    case RunShadow => Some(Processed)
    case RunReady => Some(Processed)
    case RunCompleted => Some(Processed)
    case RunRejected => Some(Processed)
    case RunFailed => Some(EventFailed)
    case RunSuperseded => None
  }

  predicate Unheld(status: EventStatus) {
    status in {Queued, Suspended, Unauthorized, Echo}
  }

  predicate EventFits(e: Event, runs: seq<Run>) {
    match e.run
    case None => Unheld(e.status)
    case Some(r) => r < |runs| && runs[r].task == e.task && StatusUnder(runs[r].status) == Some(e.status)
  }

  ghost predicate EventsFit(events: seq<Event>, runs: seq<Run>) {
    forall e :: 0 <= e < |events| ==> EventFits(events[e], runs)
  }

  predicate TriggerHeld(events: seq<Event>, run: Run, r: nat) {
    run.status != RunSuperseded ==> run.trigger < |events| && events[run.trigger].run == Some(r)
  }

  /** A run that was not superseded still holds the event that triggered it. */
  ghost predicate TriggersHeld(events: seq<Event>, runs: seq<Run>) {
    forall r :: 0 <= r < |runs| ==> TriggerHeld(events, runs[r], r)
  }

  /** Statuses an action may have while its run has the given status. */
  predicate StatusFits(a: ActionStatus, r: RunStatus) {
    match r
    case RunReady => a == Pending || a == WaitingEngineer
    case RunCompleted => a == DeliveryPending || Dispatched(a) || a == Rejected
    case RunRejected => a == Rejected
    case RunSuperseded => a == Superseded
    case _ => false
  }

  predicate ActionFits(a: Action, runs: seq<Run>) {
    a.run < |runs| && runs[a.run].mode == Active && StatusFits(a.status, runs[a.run].status)
  }

  ghost predicate ActionsFit(actions: seq<Action>, runs: seq<Run>) {
    forall a :: 0 <= a < |actions| ==> ActionFits(actions[a], runs)
  }

  ghost predicate OneActionPerRun(actions: seq<Action>) {
    forall a, b :: 0 <= a < b < |actions| ==> actions[a].run != actions[b].run
  }

  ghost predicate HasAction(actions: seq<Action>, r: nat) {
    exists a :: 0 <= a < |actions| && actions[a].run == r
  }

  predicate Decided(status: RunStatus) {
    status in {RunReady, RunCompleted, RunRejected}
  }

  ghost predicate DecidedRunsAct(actions: seq<Action>, runs: seq<Run>) {
    forall r :: 0 <= r < |runs| && Decided(runs[r].status) ==> HasAction(actions, r)
  }

  /** What the delivery fields of one action may hold. */
  predicate DeliveryFits(a: Action) {
    && (a.reference.Some? && a.reference.value != "" ==> a.status == Executed)
    && (a.status == DeliveryPending || Dispatched(a.status) ==> a.recorded.Some?)
    && (a.status in {Pending, WaitingEngineer, Superseded} ==> a.recorded.None?)
    && (a.status in {Sending, Unknown, Reconciling} ==> a.attempted.Some?)
    && (a.kind.RequestReview? ==> !a.reconcile && a.checking.None? && a.status != Reconciling)
    && (a.checking.Some? ==> Dispatched(a.status))
    && (a.status == Reconciling ==> a.checking.Some?)
  }

  ghost predicate DeliveryRowsFit(actions: seq<Action>) {
    forall a :: 0 <= a < |actions| ==> DeliveryFits(actions[a])
  }

  ghost predicate DispatchedAt(actions: seq<Action>, a: nat) {
    a < |actions| && Dispatched(actions[a].status)
  }

  /** Claims and posts belong to dispatched actions; nothing is posted twice or while it is still held. */
  ghost predicate DeliveriesFit(actions: seq<Action>, deliveries: map<nat, Delivery>, posts: seq<nat>) {
    && (forall a :: a in deliveries ==> DispatchedAt(actions, a))
    && (forall a :: a in posts ==> DispatchedAt(actions, a))
    && (forall a :: a in deliveries && deliveries[a] == Held ==> a !in posts)
    && Distinct(posts)
  }

  /** Effects in the log are of distinct actions, and exactly of those that carry an effect's record. */
  ghost predicate EffectsLogged(effects: seq<Effect>, actions: seq<Action>) {
    && (forall i, j :: 0 <= i < j < |effects| ==> effects[i].action != effects[j].action)
    && (forall i :: 0 <= i < |effects| ==>
          effects[i].action < |actions| && actions[effects[i].action].recorded.Some?)
    && (forall a :: 0 <= a < |actions| && actions[a].recorded.Some? ==>
          exists i :: 0 <= i < |effects| && effects[i].action == a)
  }

  /** The effect met the task at the versions its run had claimed, with no newer message waiting. */
  predicate EffectSound(e: Effect, actions: seq<Action>, runs: seq<Run>) {
    && e.action < |actions| && actions[e.action].run < |runs|
    && SameVersions(e.before, runs[actions[e.action].run].lifecycle, runs[actions[e.action].run].requirement)
    && actions[e.action].recorded.Some?
    && SameVersions(e.after, actions[e.action].recorded.value.lifecycle, actions[e.action].recorded.value.requirement)
    && e.current && Coordinated(e.before)
  }

  ghost predicate EffectsSound(effects: seq<Effect>, actions: seq<Action>, runs: seq<Run>) {
    forall i :: 0 <= i < |effects| ==> EffectSound(effects[i], actions, runs)
  }

  /** A request's revisions never run ahead of its task. */
  ghost predicate HumansBehind(humans: seq<HumanRequest>, tasks: seq<Task>) {
    forall h :: 0 <= h < |humans| ==>
      humans[h].task < |tasks|
      && humans[h].requirement <= tasks[humans[h].task].requirement
      && humans[h].lifecycle <= tasks[humans[h].task].lifecycle
  }

  predicate SameQuestion(g: HumanRequest, h: HumanRequest) {
    g.task == h.task && g.requirement == h.requirement && g.lifecycle == h.lifecycle
  }

  /** One live request per task and versions; a request is open exactly until it is answered or withdrawn. */
  ghost predicate HumansFit(humans: seq<HumanRequest>) {
    && (forall g, h :: 0 <= g < h < |humans| && Live(humans[g]) && Live(humans[h]) ==> !SameQuestion(humans[g], humans[h]))
    && (forall h :: 0 <= h < |humans| ==> (humans[h].status == Open ==> humans[h].answer.None?)
                                          && (humans[h].status == Answered ==> humans[h].answer.Some?))
  }

  ghost predicate Inv(s: State) {
    && TablesLinked(s.tasks, s.events, s.runs, s.humans)
    && ActionsLinked(s.actions, s.runs)
    && OneActiveRun(s.runs)
    && EventsFit(s.events, s.runs)
    && TriggersHeld(s.events, s.runs)
    && OneActionPerRun(s.actions)
    && ActionsFit(s.actions, s.runs)
    && DecidedRunsAct(s.actions, s.runs)
    && DeliveryRowsFit(s.actions)
    && DeliveriesFit(s.actions, s.deliveries, s.posts)
    && EffectsLogged(s.effects, s.actions)
    && EffectsSound(s.effects, s.actions, s.runs)
    && HumansBehind(s.humans, s.tasks)
    && HumansFit(s.humans)
    && UniqueKeys(s.events)
  }

  // -------------------------------------------------- one run changes its status

  /** A run keeps its identity while its status and decision change. */
  predicate SameRun(a: Run, b: Run) {
    a.(status := b.status, decision := b.decision) == b
  }

  /** The batch follows its run's new status. */
  lemma BatchFollows(events: seq<Event>, runs: seq<Run>, r: nat, run: Run, status: EventStatus)
    requires r < |runs| && SameRun(runs[r], run) && StatusUnder(run.status) == Some(status)
    requires runs[r].status != RunSuperseded
    requires EventsFit(events, runs) && TriggersHeld(events, runs)
    ensures EventsFit(SetBatch(events, r, status), runs[r := run])
    ensures TriggersHeld(SetBatch(events, r, status), runs[r := run])
  {
    forall e | 0 <= e < |events| ensures EventFits(SetBatch(events, r, status)[e], runs[r := run]) {
      assert EventFits(events[e], runs);
    }
    var events', runs' := SetBatch(events, r, status), runs[r := run];
    forall i | 0 <= i < |runs'| ensures TriggerHeld(events', runs'[i], i) {
      assert TriggerHeld(events, runs[i], i);
    }
  }

  /** A superseded run lets go of its whole batch. */
  lemma BatchReturns(events: seq<Event>, runs: seq<Run>, r: nat, run: Run, now: int)
    requires r < |runs| && SameRun(runs[r], run) && run.status == RunSuperseded
    requires EventsFit(events, runs) && TriggersHeld(events, runs)
    ensures EventsFit(Requeue(events, r, now), runs[r := run])
    ensures TriggersHeld(Requeue(events, r, now), runs[r := run])
  {
    forall e | 0 <= e < |events| ensures EventFits(Requeue(events, r, now)[e], runs[r := run]) {
      assert EventFits(events[e], runs);
    }
    var events', runs' := Requeue(events, r, now), runs[r := run];
    forall i | 0 <= i < |runs'| ensures TriggerHeld(events', runs'[i], i) {
      assert TriggerHeld(events, runs[i], i);
    }
  }

  /** A run that changes status between two that dictate the same event status leaves its batch alone. */
  lemma BatchStays(events: seq<Event>, runs: seq<Run>, r: nat, run: Run)
    requires r < |runs| && SameRun(runs[r], run)
    requires StatusUnder(run.status) == StatusUnder(runs[r].status) && run.status != RunSuperseded
    requires EventsFit(events, runs) && TriggersHeld(events, runs)
    ensures EventsFit(events, runs[r := run]) && TriggersHeld(events, runs[r := run])
  {
    forall e | 0 <= e < |events| ensures EventFits(events[e], runs[r := run]) {
      assert EventFits(events[e], runs);
    }
    var runs' := runs[r := run];
    forall i | 0 <= i < |runs'| ensures TriggerHeld(events, runs'[i], i) {
      assert TriggerHeld(events, runs[i], i);
    }
  }

  /** No run becomes active, so no task gains an active run. */
  lemma NoNewActiveRun(runs: seq<Run>, r: nat, run: Run)
    requires r < |runs| && SameRun(runs[r], run) && (Busy(run.status) ==> Busy(runs[r].status))
    requires OneActiveRun(runs)
    ensures OneActiveRun(runs[r := run])
  {
  }

  /** The soundness of effects depends only on what a run keeps. */
  lemma EffectsStaySound(effects: seq<Effect>, actions: seq<Action>, runs: seq<Run>, r: nat, run: Run)
    requires r < |runs| && SameRun(runs[r], run)
    requires EffectsSound(effects, actions, runs)
    ensures EffectsSound(effects, actions, runs[r := run])
  {
    forall i | 0 <= i < |effects| ensures EffectSound(effects[i], actions, runs[r := run]) {
      assert EffectSound(effects[i], actions, runs);
    }
  }

  // ----------------------------------------------- one action changes its status

  /** An action keeps its identity while its delivery advances. */
  predicate SameAction(a: Action, b: Action) {
    a.(status := b.status, recorded := b.recorded, reconcile := b.reconcile, reference := b.reference,
       attempted := b.attempted, checking := b.checking) == b
  }

  /** Run `r` and its only action `a` move together. */
  lemma PairMoves(actions: seq<Action>, runs: seq<Run>, a: nat, action: Action, run: Run)
    requires a < |actions| && SameAction(actions[a], action)
    requires action.run < |runs| && SameRun(runs[action.run], run) && StatusFits(action.status, run.status)
    requires ActionsLinked(actions, runs) && OneActionPerRun(actions)
    requires ActionsFit(actions, runs) && DecidedRunsAct(actions, runs)
    ensures ActionsLinked(actions[a := action], runs[action.run := run])
    ensures OneActionPerRun(actions[a := action])
    ensures ActionsFit(actions[a := action], runs[action.run := run])
    ensures DecidedRunsAct(actions[a := action], runs[action.run := run])
  {
    var actions', runs' := actions[a := action], runs[action.run := run];
    forall i | 0 <= i < |actions'| ensures ActionLinked(actions'[i], runs') && ActionFits(actions'[i], runs') {
      assert ActionLinked(actions[i], runs) && ActionFits(actions[i], runs);
    }
    forall r | 0 <= r < |runs'| && Decided(runs'[r].status) ensures HasAction(actions', r) {
      if r == action.run {
        assert actions'[a].run == r;
      } else {
        var b :| 0 <= b < |actions| && actions[b].run == r;
        assert actions'[b].run == r;
      }
    }
  }

  /** A delivery that keeps its record and never becomes undispatched keeps everything said about deliveries. */
  lemma DeliveryMoves(s: State, a: nat, action: Action)
    requires a < |s.actions| && SameAction(s.actions[a], action)
    requires action.recorded == s.actions[a].recorded
    requires Dispatched(s.actions[a].status) ==> Dispatched(action.status)
    requires DeliveryFits(action) && action.run < |s.runs| && StatusFits(action.status, s.runs[action.run].status)
    requires Inv(s)
    ensures Inv(s.(actions := s.actions[a := action]))
  {
    var actions' := s.actions[a := action];
    PairMoves(s.actions, s.runs, a, action, s.runs[action.run]);
    assert s.runs[action.run := s.runs[action.run]] == s.runs;
    assert DeliveryRowsFit(actions');
    assert DeliveriesFit(actions', s.deliveries, s.posts) by {
      forall b | DispatchedAt(s.actions, b) ensures DispatchedAt(actions', b) {}
    }
    assert EffectsLogged(s.effects, actions') by { LogStays(s.effects, s.actions, a, action); }
    forall i | 0 <= i < |s.effects| ensures EffectSound(s.effects[i], actions', s.runs) {
      assert EffectSound(s.effects[i], s.actions, s.runs);
    }
  }

  /** The log is about records, which this change keeps. */
  lemma LogStays(effects: seq<Effect>, actions: seq<Action>, a: nat, action: Action)
    requires a < |actions| && action.recorded.Some? == actions[a].recorded.Some?
    requires EffectsLogged(effects, actions)
    ensures EffectsLogged(effects, actions[a := action])
  {
    var actions' := actions[a := action];
    forall b | 0 <= b < |actions'| && actions'[b].recorded.Some?
      ensures exists i :: 0 <= i < |effects| && effects[i].action == b
    {
      assert actions[b].recorded.Some?;
    }
  }

  // -------------------------------------------------------- transaction lemmas

  lemma ElapseKeeps(s: State, n: nat)
    requires Inv(s)
    ensures Inv(s.(now := s.now + n))
  {
  }

  lemma EditKeeps(s: State, t: nat, after: Task)
    requires Inv(s)
    ensures Inv(EditTask(s, t, after))
  {
  }

  /** A delivery that was never posted can be handed to a worker. */
  lemma HoldingKeeps(s: State, a: nat)
    requires Inv(s) && DispatchedAt(s.actions, a) && a !in s.posts
    ensures Inv(s.(deliveries := s.deliveries[a := Held]))
  {
  }

  lemma DispatchKeeps(s: State, a: nat, row: Action)
    requires Inv(s) && a < |s.actions| && s.actions[a].status == DeliveryPending
    requires SameAction(s.actions[a], row) && row.recorded == s.actions[a].recorded
    requires row.status == Sending && DeliveryFits(row)
    ensures Inv(s.(actions := s.actions[a := row], deliveries := s.deliveries[a := Held]))
  {
    assert ActionFits(s.actions[a], s.runs);
    DeliveryMoves(s, a, row);
    NotYetPosted(s, a);
    HoldingKeeps(s.(actions := s.actions[a := row]), a);
  }

  lemma ClaimDeliveryKeeps(s: State, a: nat, cfg: Settings, permitted: set<nat>)
    requires Inv(s)
    ensures Inv(ClaimDelivery(s, a, cfg, permitted))
  {
    if a < |s.actions| && s.actions[a].status == DeliveryPending {
      var row := ClaimDelivery(s, a, cfg, permitted).actions[a];
      if row.status == Sending {
        ClaimedRow(s, a, row, cfg, permitted);
        DispatchKeeps(s, a, row);
      } else {
        RefusalKeeps(s, a, row);
      }
    }
  }

  lemma ClaimedRow(s: State, a: nat, row: Action, cfg: Settings, permitted: set<nat>)
    requires Inv(s) && a < |s.actions| && s.actions[a].status == DeliveryPending
    requires row == ClaimDelivery(s, a, cfg, permitted).actions[a] && row.status == Sending
    ensures SameAction(s.actions[a], row) && row.recorded == s.actions[a].recorded && DeliveryFits(row)
  {
    assert DeliveryFits(s.actions[a]);
  }

  lemma RefusalKeeps(s: State, a: nat, row: Action)
    requires Inv(s) && a < |s.actions| && s.actions[a].status == DeliveryPending
    requires row.status == Rejected && (row == s.actions[a].(status := Rejected) || row == s.actions[a].(status := Rejected, attempted := Some(s.now)))
    ensures Inv(s.(actions := s.actions[a := row]))
  {
    assert ActionFits(s.actions[a], s.runs) && DeliveryFits(s.actions[a]);
    DeliveryMoves(s, a, row);
  }

  lemma NotYetPosted(s: State, a: nat)
    requires Inv(s) && a < |s.actions| && s.actions[a].status == DeliveryPending
    ensures a !in s.posts
  {
    assert a in s.posts ==> DispatchedAt(s.actions, a);
  }

  lemma PostKeeps(s: State, a: nat)
    requires Inv(s)
    ensures Inv(Post(s, a))
  {
  }

  /** A worker lets go of its delivery. */
  lemma ReleaseKeeps(s: State, a: nat)
    requires Inv(s)
    ensures Inv(s.(deliveries := s.deliveries - {a}))
  {
  }

  lemma FailDeliveryKeeps(s: State, a: nat, reconcile: bool)
    requires Inv(s)
    requires reconcile ==> a < |s.actions| && !s.actions[a].kind.RequestReview?
    ensures Inv(FailDelivery(s, a, reconcile))
  {
    if a in s.deliveries && a < |s.actions| {
      ReleaseKeeps(s, a);
      if s.actions[a].status != Executed {
        SettledDelivery(s, a, s.actions[a].(status := Unknown, reconcile := reconcile));
      }
    }
  }

  /** The new row of a delivery whose worker has let go. */
  lemma SettledDelivery(s: State, a: nat, action: Action)
    requires Inv(s) && a in s.deliveries && a < |s.actions| && SameAction(s.actions[a], action)
    requires action.status == Executed || (action.status == Unknown && s.actions[a].status != Executed
                                           && action.reference == s.actions[a].reference)
    requires action.recorded == s.actions[a].recorded && action.attempted == s.actions[a].attempted
    requires action.checking == s.actions[a].checking && (action.reconcile ==> !action.kind.RequestReview?)
    ensures Inv(s.(deliveries := s.deliveries - {a}, actions := s.actions[a := action]))
  {
    assert ActionFits(s.actions[a], s.runs) && DeliveryFits(s.actions[a]) && DispatchedAt(s.actions, a);
    ReleaseKeeps(s, a);
    DeliveryMoves(s.(deliveries := s.deliveries - {a}), a, action);
  }

  lemma CompleteDeliveryKeeps(s: State, a: nat, reference: string)
    requires Inv(s)
    ensures Inv(CompleteDelivery(s, a, reference))
  {
    if a in s.deliveries && s.deliveries[a] == Posted && a < |s.actions| {
      assert DeliveryFits(s.actions[a]);
      SettledDelivery(s, a, s.actions[a].(status := Executed, reference := Some(reference)));
    }
  }

  lemma ClaimReconciliationKeeps(s: State, a: nat)
    requires Inv(s)
    ensures Inv(ClaimReconciliation(s, a))
  {
    var s' := ClaimReconciliation(s, a);
    if s' != s {
      assert ActionFits(s.actions[a], s.runs) && DeliveryFits(s.actions[a]);
      DeliveryMoves(s, a, s'.actions[a]);
    }
  }

  lemma CompleteReconciliationKeeps(s: State, a: nat, found: Option<string>)
    requires Inv(s)
    ensures Inv(CompleteReconciliation(s, a, found))
  {
    var s' := CompleteReconciliation(s, a, found);
    if s' != s {
      assert ActionFits(s.actions[a], s.runs) && DeliveryFits(s.actions[a]);
      DeliveryMoves(s, a, s'.actions[a]);
    }
  }

  lemma RequestCheckKeeps(s: State, a: nat)
    requires Inv(s)
    ensures Inv(RequestCheck(s, a))
  {
    var s' := RequestCheck(s, a);
    if s' != s {
      assert ActionFits(s.actions[a], s.runs) && DeliveryFits(s.actions[a]);
      DeliveryMoves(s, a, s'.actions[a]);
    }
  }

  /** The part of `RecoverActions` that has visited the first `n` rows. */
  function RecoveredUpTo(s: State, locked: set<nat>, n: nat): State
    requires n <= |s.actions|
  {
    s.(actions := RecoverActions(s, locked).actions[..n] + s.actions[n..])
  }

  lemma RecoverOneAction(s: State, locked: set<nat>, n: nat)
    requires n < |s.actions| && Inv(RecoveredUpTo(s, locked, n))
    ensures Inv(RecoveredUpTo(s, locked, n + 1))
  {
    var before := RecoveredUpTo(s, locked, n);
    var row := RecoverActions(s, locked).actions[n];
    assert before.actions[n] == s.actions[n];
    assert ActionFits(before.actions[n], before.runs) && DeliveryFits(before.actions[n]);
    DeliveryMoves(before, n, row);
    assert RecoveredUpTo(s, locked, n + 1).actions == before.actions[n := row];
  }

  lemma {:induction false} RecoverActionsKeeps(s: State, locked: set<nat>, n: nat)
    requires Inv(s) && n <= |s.actions|
    ensures Inv(RecoveredUpTo(s, locked, n))
    ensures n == |s.actions| ==> Inv(RecoverActions(s, locked))
  {
    if n == 0 {
      assert RecoveredUpTo(s, locked, 0) == s;
    } else {
      RecoverActionsKeeps(s, locked, n - 1);
      RecoverOneAction(s, locked, n - 1);
    }
    assert n == |s.actions| ==> RecoveredUpTo(s, locked, n).actions == RecoverActions(s, locked).actions;
  }

  // ------------------------------------------------------------------- inserts

  /** A new event that no run holds. */
  lemma EventArrives(s: State, e: Event)
    requires Inv(s)
    requires e.task < |s.tasks| && e.run.None? && Unheld(e.status)
    requires forall i :: 0 <= i < |s.events| && s.events[i].provider == e.provider ==> s.events[i].key != e.key
    ensures Inv(s.(events := s.events + [e]))
  {
    var events' := s.events + [e];
    forall i | 0 <= i < |events'| ensures EventFits(events'[i], s.runs) {
      assert i < |s.events| ==> EventFits(s.events[i], s.runs);
    }
    forall r | 0 <= r < |s.runs| ensures TriggerHeld(events', s.runs[r], r) {
      assert TriggerHeld(s.events, s.runs[r], r);
    }
  }

  lemma {:induction false} NoticesArrive(s: State, t: nat, notices: seq<Notice>, now: int)
    requires Inv(s) && t < |s.tasks|
    requires UniqueKeys(s.events + NoticeEvents(t, notices, now))
    ensures Inv(s.(events := s.events + NoticeEvents(t, notices, now)))
  {
    if notices == [] {
      assert s.events + NoticeEvents(t, notices, now) == s.events;
    } else {
      var front, last := notices[..|notices| - 1], notices[|notices| - 1];
      var all, shorter := s.events + NoticeEvents(t, notices, now), s.events + NoticeEvents(t, front, now);
      assert all == shorter + [NoticeEvent(t, last, now)];
      forall i, j | 0 <= i < j < |shorter| && shorter[i].provider == shorter[j].provider
        ensures shorter[i].key != shorter[j].key
      {
        assert shorter[i] == all[i] && shorter[j] == all[j];
      }
      NoticesArrive(s, t, front, now);
      forall i | 0 <= i < |shorter| && shorter[i].provider == "engineering" ensures shorter[i].key != last.key {
        assert shorter[i] == all[i] && all[|shorter|] == NoticeEvent(t, last, now);
      }
      EventArrives(s.(events := shorter), NoticeEvent(t, last, now));
    }
  }

  lemma NotifyKeeps(s: State, t: nat, n: Notice, delay: nat)
    requires Inv(s)
    ensures Inv(Notify(s, t, n, delay))
  {
    if Notify(s, t, n, delay) != s {
      EventArrives(s, NoticeEvent(t, n, s.now).(available := s.now + delay));
    }
  }

  lemma NotifyEngineeringKeeps(s: State, t: nat, key: string, kind: string, cfg: Settings)
    requires Inv(s)
    ensures Inv(NotifyEngineering(s, t, key, kind, cfg))
  {
    var previous := LastOutside(s.events, t);
    if previous.Some? {
      NotifyKeeps(s, t, Notice(key, kind, s.events[previous.value].provider), 0);
    }
  }

  /** The answer to an open request is stored once. */
  lemma AnswerKeeps(s: State, h: nat, answer: string)
    requires Inv(s) && h < |s.humans| && s.humans[h].status == Open
    ensures Inv(s.(humans := s.humans[h := s.humans[h].(status := Answered, answer := Some(answer))]))
  {
  }

  lemma EnqueueKeeps(s: State, m: Incoming, cfg: Settings, delay: nat)
    requires Inv(s)
    ensures Inv(Enqueue(s, m, cfg, delay))
  {
    if m.task < |s.tasks| && !SeenKey(s, m) {
      ArriveKeeps(s, m, cfg, delay);
    }
  }

  lemma ArriveKeeps(s: State, m: Incoming, cfg: Settings, delay: nat)
    requires Inv(s) && m.task < |s.tasks| && !SeenKey(s, m)
    ensures Inv(Arrive(s, m, cfg, delay))
  {
    var echo := FindEcho(s, m);
    if echo.Some? {
      EchoKeeps(s, m, echo.value, delay);
    } else if !m.permitted {
      EventArrives(s, InboundEvent(s, m, m.kind, m.humanRequest, Unauthorized, delay));
    } else if ModeOf(cfg, m.provider) == Active {
      ReceiveKeeps(s, m, delay);
    } else {
      EventArrives(s, InboundEvent(s, m, m.kind, m.humanRequest, Queued, delay));
    }
  }

  lemma EchoKeeps(s: State, m: Incoming, a: nat, delay: nat)
    requires Inv(s) && m.task < |s.tasks| && !SeenKey(s, m) && EchoOf(s, m, a)
    ensures Inv(s.(
      actions := if m.effect == "" then s.actions
                 else s.actions[a := s.actions[a].(status := Executed, reference := Some(m.effect))],
      events := s.events + [InboundEvent(s, m, "EFFECT_CONFIRMED", None, Echo, 0)]))
  {
    var e := InboundEvent(s, m, "EFFECT_CONFIRMED", None, Echo, 0);
    if m.effect != "" {
      assert ActionFits(s.actions[a], s.runs) && DeliveryFits(s.actions[a]);
      DeliveryMoves(s, a, s.actions[a].(status := Executed, reference := Some(m.effect)));
      EventArrives(s.(actions := s.actions[a := s.actions[a].(status := Executed, reference := Some(m.effect))]), e);
    } else {
      EventArrives(s, e);
    }
  }

  lemma ReceiveKeeps(s: State, m: Incoming, delay: nat)
    requires Inv(s) && m.task < |s.tasks| && !SeenKey(s, m)
    ensures Inv(Receive(s, m, delay))
  {
    var about := Addressed(s, m);
    if about.Some? && LiveFor(s.humans, m.task, s.tasks[m.task], about.value) {
      var h := about.value;
      var e := InboundEvent(s, m, "HUMAN_RESPONSE", about, Queued, delay);
      if s.humans[h].status == Open {
        AnswerKeeps(s, h, Kept(m.body));
        EventArrives(s.(humans := Receive(s, m, delay).humans), e);
      } else {
        EventArrives(s, e);
      }
    } else {
      EventArrives(s, InboundEvent(s, m, m.kind, about, Queued, delay));
    }
  }

  // ------------------------------------------------------- claiming and deciding

  /** Only a decided or superseded run has an action. */
  lemma NoActionYet(s: State, r: nat)
    requires Inv(s) && r < |s.runs| && s.runs[r].status == RunClaimed
    ensures forall a :: 0 <= a < |s.actions| ==> s.actions[a].run != r
  {
    forall a | 0 <= a < |s.actions| ensures s.actions[a].run != r {
      assert ActionFits(s.actions[a], s.runs);
    }
  }

  /** A claimed run that ends without an action leaves actions and effects as they were. */
  lemma RunEnds(s: State, r: nat, run: Run, events: seq<Event>)
    requires Inv(s) && r < |s.runs| && s.runs[r].status == RunClaimed
    requires SameRun(s.runs[r], run) && run.status in {RunShadow, RunFailed, RunSuperseded}
    requires EventsFit(events, s.runs[r := run]) && TriggersHeld(events, s.runs[r := run]) && UniqueKeys(events)
    requires forall e :: 0 <= e < |events| ==> events[e].task < |s.tasks|
    ensures Inv(s.(runs := s.runs[r := run], events := events))
  {
    var runs' := s.runs[r := run];
    NoActionYet(s, r);
    NoNewActiveRun(s.runs, r, run);
    EffectsStaySound(s.effects, s.actions, s.runs, r, run);
    forall a | 0 <= a < |s.actions| ensures ActionLinked(s.actions[a], runs') && ActionFits(s.actions[a], runs') {
      assert ActionLinked(s.actions[a], s.runs) && ActionFits(s.actions[a], s.runs);
    }
  }

  lemma FailKeeps(s: State, r: nat, superseded: bool)
    requires Inv(s)
    ensures Inv(Fail(s, r, superseded))
  {
    var s' := Fail(s, r, superseded);
    if r < |s.runs| && s.runs[r].status == RunClaimed {
      var run := s'.runs[r];
      if superseded {
        BatchReturns(s.events, s.runs, r, run, s.now);
      } else {
        BatchFollows(s.events, s.runs, r, run, EventFailed);
      }
      RunEnds(s, r, run, s'.events);
    }
  }

  /** The part of `RecoverRuns` that has visited the first `n` runs. */
  function RunsRecoveredUpTo(s: State, locked: set<nat>, n: nat): State
    requires n <= |s.runs|
  {
    s.(runs := RecoverRuns(s, locked).runs[..n] + s.runs[n..],
       events := seq(|s.events|, e requires 0 <= e < |s.events| =>
         if s.events[e].run.Some? && s.events[e].run.value < n then RecoverRuns(s, locked).events[e] else s.events[e]))
  }

  lemma NoneRecovered(s: State, locked: set<nat>)
    ensures RunsRecoveredUpTo(s, locked, 0) == s
  {
    assert RunsRecoveredUpTo(s, locked, 0).runs == s.runs && RunsRecoveredUpTo(s, locked, 0).events == s.events;
  }

  lemma NotYetRecovered(s: State, locked: set<nat>, n: nat)
    requires n < |s.runs|
    ensures |RunsRecoveredUpTo(s, locked, n).runs| == |s.runs| && RunsRecoveredUpTo(s, locked, n).runs[n] == s.runs[n]
  {
  }

  /** Visiting one more run fails it if it is stale. */
  lemma RecoverOneRun(s: State, locked: set<nat>, n: nat)
    requires 0 < n <= |s.runs|
    ensures RunsRecoveredUpTo(s, locked, n)
         == if StaleRun(s, locked, n - 1) then Fail(RunsRecoveredUpTo(s, locked, n - 1), n - 1, false)
            else RunsRecoveredUpTo(s, locked, n - 1)
  {
    var before, after := RunsRecoveredUpTo(s, locked, n - 1), RunsRecoveredUpTo(s, locked, n);
    if StaleRun(s, locked, n - 1) {
      assert after.runs == Fail(before, n - 1, false).runs;
      assert after.events == Fail(before, n - 1, false).events;
    } else {
      assert after.runs == before.runs;
      assert after.events == before.events;
    }
  }

  lemma {:induction false} RecoverRunsKeeps(s: State, locked: set<nat>, n: nat)
    requires Inv(s) && n <= |s.runs|
    ensures Inv(RunsRecoveredUpTo(s, locked, n))
    ensures n == |s.runs| ==> Inv(RecoverRuns(s, locked))
  {
    if n == 0 {
      assert RunsRecoveredUpTo(s, locked, 0) == s;
    } else {
      RecoverRunsKeeps(s, locked, n - 1);
      RecoverOneRun(s, locked, n);
      FailKeeps(RunsRecoveredUpTo(s, locked, n - 1), n - 1, false);
    }
    if n == |s.runs| {
      AllRunsRecovered(s, locked);
    }
  }

  lemma AllRunsRecovered(s: State, locked: set<nat>)
    requires EventsFit(s.events, s.runs)
    ensures RunsRecoveredUpTo(s, locked, |s.runs|) == RecoverRuns(s, locked)
  {
    var all, done := RunsRecoveredUpTo(s, locked, |s.runs|), RecoverRuns(s, locked);
    assert all.runs == done.runs;
    forall e | 0 <= e < |s.events| ensures all.events[e] == done.events[e] {
      assert EventFits(s.events[e], s.runs);
    }
    assert all.events == done.events;
  }

  lemma CompleteKeeps(s: State, r: nat, t: nat, d: Decision)
    requires Inv(s)
    ensures Inv(Complete(s, r, t, d))
  {
    if r < |s.runs| && s.runs[r].status == RunClaimed && s.runs[r].task == t && t < |s.tasks|
       && SameVersions(s.tasks[t], s.runs[r].lifecycle, s.runs[r].requirement) {
      CompletionKeeps(s, r, t, d);
    }
  }

  lemma CompletionKeeps(s: State, r: nat, t: nat, d: Decision)
    requires Inv(s) && r < |s.runs| && s.runs[r].status == RunClaimed && s.runs[r].task == t && t < |s.tasks|
    requires SameVersions(s.tasks[t], s.runs[r].lifecycle, s.runs[r].requirement)
    ensures Inv(Complete(s, r, t, d))
  {
    var run := s.runs[r].(decision := Some(d), status := if s.runs[r].mode == Shadow then RunShadow else RunReady);
    BatchFollows(s.events, s.runs, r, run, Processed);
    if run.mode == Shadow {
      RunEnds(s, r, run, SetBatch(s.events, r, Processed));
    } else {
      var action := Action(r, t, d.action, Pending, d, run.trigger, None, false, None, s.now, None, None);
      DecisionKeeps(s, r, run, action, SetBatch(s.events, r, Processed));
    }
  }

  lemma DecisionKeeps(s: State, r: nat, run: Run, action: Action, events: seq<Event>)
    requires Inv(s) && r < |s.runs| && s.runs[r].status == RunClaimed
    requires SameRun(s.runs[r], run) && run.status == RunReady && run.mode == Active
    requires action.run == r && action.task == run.task && action.event == run.trigger && action.status == Pending
    requires action.recorded.None? && action.reference.None? && !action.reconcile && action.checking.None?
    requires EventsFit(events, s.runs[r := run]) && TriggersHeld(events, s.runs[r := run]) && UniqueKeys(events)
    requires forall e :: 0 <= e < |events| ==> events[e].task < |s.tasks|
    ensures Inv(s.(runs := s.runs[r := run], events := events, actions := s.actions + [action]))
  {
    var runs', actions' := s.runs[r := run], s.actions + [action];
    NoActionYet(s, r);
    NoNewActiveRun(s.runs, r, run);
    forall a | 0 <= a < |actions'| ensures ActionLinked(actions'[a], runs') && ActionFits(actions'[a], runs') {
      assert a < |s.actions| ==> ActionLinked(s.actions[a], s.runs) && ActionFits(s.actions[a], s.runs);
    }
    forall q | 0 <= q < |runs'| && Decided(runs'[q].status) ensures HasAction(actions', q) {
      if q == r {
        assert actions'[|s.actions|].run == r;
      } else {
        var a :| 0 <= a < |s.actions| && s.actions[a].run == q;
        assert actions'[a].run == q;
      }
    }
    InsertKeepsDeliveries(s, action);
    forall i | 0 <= i < |s.effects| ensures EffectSound(s.effects[i], actions', runs') {
      assert EffectSound(s.effects[i], s.actions, s.runs);
    }
  }

  lemma InsertKeepsDeliveries(s: State, action: Action)
    requires DeliveryRowsFit(s.actions) && DeliveriesFit(s.actions, s.deliveries, s.posts) && EffectsLogged(s.effects, s.actions)
    requires DeliveryFits(action) && action.recorded.None?
    ensures DeliveryRowsFit(s.actions + [action])
    ensures DeliveriesFit(s.actions + [action], s.deliveries, s.posts)
    ensures EffectsLogged(s.effects, s.actions + [action])
  {
    var actions' := s.actions + [action];
    forall a | DispatchedAt(s.actions, a) ensures DispatchedAt(actions', a) {}
    forall a | 0 <= a < |actions'| && actions'[a].recorded.Some?
      ensures exists i :: 0 <= i < |s.effects| && s.effects[i].action == a
    {
      assert s.actions[a].recorded.Some?;
    }
  }

  /** Two states that differ in events no run holds are alike for the invariant. */
  lemma UnheldChange(s: State, e: nat, status: EventStatus)
    requires Inv(s) && e < |s.events| && s.events[e].run.None? && Unheld(status)
    ensures Inv(s.(events := s.events[e := s.events[e].(status := status)]))
  {
    var events' := s.events[e := s.events[e].(status := status)];
    forall i | 0 <= i < |events'| ensures EventFits(events'[i], s.runs) {
      assert EventFits(s.events[i], s.runs);
    }
    forall r | 0 <= r < |s.runs| ensures TriggerHeld(events', s.runs[r], r) {
      assert TriggerHeld(s.events, s.runs[r], r);
    }
  }

  /** A batch of queued events of one task. */
  predicate QueuedBatch(s: State, t: nat, batch: seq<nat>) {
    forall i :: 0 <= i < |batch| ==> Eligible(s, t, batch[i])
  }

  /** Queued events have no run, so triage cannot take an event from another run. */
  lemma QueuedIsUnheld(s: State, e: nat)
    requires EventsFit(s.events, s.runs) && e < |s.events| && s.events[e].status == Queued
    ensures s.events[e].run.None?
  {
    assert EventFits(s.events[e], s.runs);
  }

  lemma InBatch(s: State, t: nat, batch: seq<nat>, e: nat)
    requires QueuedBatch(s, t, batch) && e in batch
    ensures Eligible(s, t, e)
  {
    var i :| 0 <= i < |batch| && batch[i] == e;
  }

  lemma TriagedEventFits(s: State, q: ClaimInput, t: nat, run: Run, status: EventStatus, e: nat)
    requires QueuedBatch(s, t, q.batch) && EventsFit(s.events, s.runs)
    requires run.task == t && StatusUnder(run.status) == Some(status)
    requires e < |s.events|
    ensures EventFits(Triaged(s, q, |s.runs|, status)[e], s.runs + [run])
    ensures e !in q.batch ==> Triaged(s, q, |s.runs|, status)[e] == s.events[e]
    ensures e in q.batch && Judge(s, q, e) == Admit ==> Triaged(s, q, |s.runs|, status)[e].run == Some(|s.runs|)
    ensures s.events[e].run.Some? ==> Triaged(s, q, |s.runs|, status)[e] == s.events[e]
    ensures Judge(s, q, e) != Admit ==>
      Triaged(s, q, |s.runs|, status)[e].run == s.events[e].run
      && EventFits(Triaged(s, q, |s.runs|, status)[e], s.runs)
  {
    assert EventFits(s.events[e], s.runs);
    if e in q.batch {
      InBatch(s, t, q.batch, e);
      QueuedIsUnheld(s, e);
    }
  }

  lemma TriageFits(s: State, q: ClaimInput, t: nat, run: Run, status: EventStatus)
    requires QueuedBatch(s, t, q.batch)
    requires EventsFit(s.events, s.runs) && TriggersHeld(s.events, s.runs)
    requires run.task == t && StatusUnder(run.status) == Some(status)
    requires run.trigger < |s.events| && run.trigger in q.batch && Judge(s, q, run.trigger) == Admit
    ensures EventsFit(Triaged(s, q, |s.runs|, status), s.runs + [run])
    ensures TriggersHeld(Triaged(s, q, |s.runs|, status), s.runs + [run])
  {
    var events', runs' := Triaged(s, q, |s.runs|, status), s.runs + [run];
    forall e | 0 <= e < |events'| ensures EventFits(events'[e], runs') {
      TriagedEventFits(s, q, t, run, status, e);
    }
    forall r | 0 <= r < |runs'| ensures TriggerHeld(events', runs'[r], r) {
      TriagedEventFits(s, q, t, run, status, run.trigger);
      if r < |s.runs| && s.runs[r].status != RunSuperseded {
        assert TriggerHeld(s.events, s.runs[r], r);
        TriagedEventFits(s, q, t, run, status, s.runs[r].trigger);
      }
    }
  }

  lemma AdmittedJudged(s: State, q: ClaimInput, e: nat)
    requires forall i :: 0 <= i < |q.batch| ==> q.batch[i] < |s.events|
    requires e in Admitted(s, q, q.batch)
    ensures e in q.batch && e < |s.events| && Judge(s, q, e) == Admit
  {
    var i :| 0 <= i < |Admitted(s, q, q.batch)| && Admitted(s, q, q.batch)[i] == e;
  }

  /** With nothing admitted, triage only marks rows that no run holds. */
  lemma EmptyTriageFits(s: State, q: ClaimInput, t: nat)
    requires QueuedBatch(s, t, q.batch) && EventsFit(s.events, s.runs) && TriggersHeld(s.events, s.runs)
    requires Admitted(s, q, q.batch) == []
    ensures EventsFit(Triaged(s, q, |s.runs|, Claimed), s.runs)
    ensures TriggersHeld(Triaged(s, q, |s.runs|, Claimed), s.runs)
  {
    var events' := Triaged(s, q, |s.runs|, Claimed);
    forall e | 0 <= e < |events'| ensures EventFits(events'[e], s.runs) && events'[e].run == s.events[e].run {
      assert EventFits(s.events[e], s.runs);
      if e in q.batch {
        InBatch(s, t, q.batch, e);
        QueuedIsUnheld(s, e);
        var i :| 0 <= i < |q.batch| && q.batch[i] == e;
        assert Judge(s, q, q.batch[i]) != Admit;
      }
    }
    forall r | 0 <= r < |s.runs| ensures TriggerHeld(events', s.runs[r], r) {
      assert TriggerHeld(s.events, s.runs[r], r);
    }
  }

  /** New rows of the event table that keep keys and tasks. */
  lemma TriagedKeys(s: State, q: ClaimInput, r: nat, status: EventStatus)
    requires UniqueKeys(s.events)
    ensures UniqueKeys(Triaged(s, q, r, status))
    ensures forall e :: 0 <= e < |s.events| ==> Triaged(s, q, r, status)[e].task == s.events[e].task
  {
  }

  lemma EmptyTriageKeeps(s: State, q: ClaimInput, t: nat)
    requires Inv(s) && QueuedBatch(s, t, q.batch) && Admitted(s, q, q.batch) == []
    ensures Inv(s.(events := Triaged(s, q, |s.runs|, Claimed)))
  {
    EmptyTriageFits(s, q, t);
    TriagedKeys(s, q, |s.runs|, Claimed);
  }

  /** A new run: no action names it yet, and its task had no active run. */
  lemma RunBorn(s: State, run: Run, events: seq<Event>)
    requires Inv(s) && !HasActiveRun(s, run.task) && run.task < |s.tasks| && run.mode != Off
    requires run.status in {RunClaimed, RunFailed}
    requires EventsFit(events, s.runs + [run]) && TriggersHeld(events, s.runs + [run]) && UniqueKeys(events)
    requires forall e :: 0 <= e < |events| ==> events[e].task < |s.tasks|
    ensures Inv(s.(runs := s.runs + [run], events := events))
  {
    var runs' := s.runs + [run];
    forall a | 0 <= a < |s.actions| ensures ActionLinked(s.actions[a], runs') && ActionFits(s.actions[a], runs') {
      assert ActionLinked(s.actions[a], s.runs) && ActionFits(s.actions[a], s.runs);
    }
    forall i | 0 <= i < |s.effects| ensures EffectSound(s.effects[i], s.actions, runs') {
      assert EffectSound(s.effects[i], s.actions, s.runs);
    }
  }

  lemma ClaimKeeps(s: State, q: ClaimInput)
    requires Inv(s)
    ensures Inv(Claim(s, q))
  {
    var s' := Claim(s, q);
    if q.pick.Some? && ValidPick(s, q.pick.value) && q.taskFree {
      var t := s.events[q.pick.value].task;
      if HasActiveRun(s, t) {
      } else if !Coordinated(s.tasks[t]) {
        QueuedIsUnheld(s, q.pick.value);
        UnheldChange(s, q.pick.value, Suspended);
      } else if ValidBatch(s, t, q.batch, q.locked) {
        assert QueuedBatch(s, t, q.batch);
        var admitted := Admitted(s, q, q.batch);
        if admitted == [] {
          EmptyTriageKeeps(s, q, t);
        } else {
          ClaimBatchKeeps(s, q, t);
        }
      }
    }
  }

  lemma ClaimBatchKeeps(s: State, q: ClaimInput, t: nat)
    requires Inv(s) && t < |s.tasks| && !HasActiveRun(s, t) && QueuedBatch(s, t, q.batch)
    requires Admitted(s, q, q.batch) != []
    ensures Inv(ClaimBatch(s, q, t))
  {
    var s' := ClaimBatch(s, q, t);
    var run := s'.runs[|s.runs|];
    var status := if q.requirementKnown then Claimed else EventFailed;
    AdmittedJudged(s, q, run.trigger);
    TriageFits(s, q, t, run, status);
    TriagedKeys(s, q, |s.runs|, status);
    RunBorn(s, run, s'.events);
  }

  // ------------------------------------------------------------------ execution

  /** What the row an execution works on looks like. */
  lemma IntentFits(s: State, a: nat)
    requires Inv(s) && a < |s.actions| && s.actions[a].status in {Pending, WaitingEngineer}
    ensures s.actions[a].run < |s.runs| && s.runs[s.actions[a].run].status == RunReady
    ensures s.actions[a].task == s.runs[s.actions[a].run].task && s.actions[a].task < |s.tasks|
    ensures s.actions[a].event < |s.events|
    ensures s.actions[a].recorded.None? && s.actions[a].reference.Some? ==> s.actions[a].reference.value == ""
    ensures DeliveryFits(s.actions[a])
  {
    assert ActionLinked(s.actions[a], s.runs) && ActionFits(s.actions[a], s.runs) && DeliveryFits(s.actions[a]);
    assert TriggerHeld(s.events, s.runs[s.actions[a].run], s.actions[a].run);
  }

  /** Run and action end together without an effect. */
  lemma PairEnds(s: State, a: nat, action: Action, run: Run, events: seq<Event>)
    requires Inv(s) && a < |s.actions| && s.actions[a].status in {Pending, WaitingEngineer}
    requires action == s.actions[a].(status := action.status) && action.status in {Superseded, Rejected}
    requires action.run < |s.runs| && run == s.runs[action.run].(status := run.status)
    requires StatusFits(action.status, run.status) && !Busy(run.status)
    requires EventsFit(events, s.runs[action.run := run]) && TriggersHeld(events, s.runs[action.run := run])
    requires UniqueKeys(events) && forall e :: 0 <= e < |events| ==> events[e].task < |s.tasks|
    ensures Inv(s.(actions := s.actions[a := action], runs := s.runs[action.run := run], events := events))
  {
    var actions', runs' := s.actions[a := action], s.runs[action.run := run];
    IntentFits(s, a);
    PairMoves(s.actions, s.runs, a, action, run);
    NoNewActiveRun(s.runs, action.run, run);
    EndedDelivery(s, a, action);
    forall i | 0 <= i < |s.effects| ensures EffectSound(s.effects[i], actions', runs') {
      assert EffectSound(s.effects[i], s.actions, s.runs);
    }
  }

  lemma EndedDelivery(s: State, a: nat, action: Action)
    requires Inv(s) && a < |s.actions| && s.actions[a].status in {Pending, WaitingEngineer}
    requires action == s.actions[a].(status := action.status) && action.status in {Superseded, Rejected}
    ensures DeliveryRowsFit(s.actions[a := action])
    ensures DeliveriesFit(s.actions[a := action], s.deliveries, s.posts)
    ensures EffectsLogged(s.effects, s.actions[a := action])
  {
    var actions' := s.actions[a := action];
    assert DeliveryFits(s.actions[a]);
    forall b | DispatchedAt(s.actions, b) ensures DispatchedAt(actions', b) {}
    LogStays(s.effects, s.actions, a, action);
  }

  lemma SupersedeKeeps(s: State, a: nat)
    requires Inv(s) && a < |s.actions| && s.actions[a].status in {Pending, WaitingEngineer}
    requires s.actions[a].run < |s.runs|
    ensures Inv(Supersede(s, a))
  {
    var r := s.actions[a].run;
    var run := s.runs[r].(status := RunSuperseded);
    BatchReturns(s.events, s.runs, r, run, s.now);
    PairEnds(s, a, s.actions[a].(status := Superseded), run, Requeue(s.events, r, s.now));
  }

  lemma RejectKeeps(s: State, a: nat)
    requires Inv(s) && a < |s.actions| && s.actions[a].status in {Pending, WaitingEngineer}
    requires s.actions[a].run < |s.runs|
    ensures Inv(s.(actions := s.actions[a := s.actions[a].(status := Rejected)],
                   runs := s.runs[s.actions[a].run := s.runs[s.actions[a].run].(status := RunRejected)]))
  {
    var r := s.actions[a].run;
    var run := s.runs[r].(status := RunRejected);
    IntentFits(s, a);
    BatchStays(s.events, s.runs, r, run);
    PairEnds(s, a, s.actions[a].(status := Rejected), run, s.events);
  }

  /** The rows of a committed effect, before the task, the requests and the notices change. */
  lemma EffectKeeps(s: State, a: nat, action: Action, run: Run, effect: Effect)
    requires Inv(s) && a < |s.actions| && s.actions[a].status in {Pending, WaitingEngineer}
    requires action == s.actions[a].(status := action.status, recorded := action.recorded)
    requires action.recorded.Some? && (action.status == DeliveryPending || action.status == Executed)
    requires action.run < |s.runs| && run == s.runs[action.run].(status := RunCompleted)
    requires effect.action == a && effect.current && Coordinated(effect.before)
    requires SameVersions(effect.before, run.lifecycle, run.requirement)
    requires SameVersions(effect.after, action.recorded.value.lifecycle, action.recorded.value.requirement)
    ensures Inv(s.(actions := s.actions[a := action], runs := s.runs[action.run := run], effects := s.effects + [effect]))
  {
    var actions', runs', effects' := s.actions[a := action], s.runs[action.run := run], s.effects + [effect];
    IntentFits(s, a);
    BatchStays(s.events, s.runs, action.run, run);
    PairMoves(s.actions, s.runs, a, action, run);
    NoNewActiveRun(s.runs, action.run, run);
    assert DeliveryFits(action);
    assert DeliveryRowsFit(actions');
    forall b | DispatchedAt(s.actions, b) ensures DispatchedAt(actions', b) {}
    LogGrows(s.effects, s.actions, a, action, effect);
    forall i | 0 <= i < |effects'| ensures EffectSound(effects'[i], actions', runs') {
      if i < |s.effects| {
        assert EffectSound(s.effects[i], s.actions, s.runs);
        assert s.effects[i].action != a;
      }
    }
  }

  lemma LogGrows(effects: seq<Effect>, actions: seq<Action>, a: nat, action: Action, effect: Effect)
    requires a < |actions| && actions[a].recorded.None? && action.recorded.Some? && effect.action == a
    requires EffectsLogged(effects, actions)
    ensures EffectsLogged(effects + [effect], actions[a := action])
    ensures forall i :: 0 <= i < |effects| ==> effects[i].action != a
  {
    var effects', actions' := effects + [effect], actions[a := action];
    forall b | 0 <= b < |actions'| && actions'[b].recorded.Some?
      ensures exists i :: 0 <= i < |effects'| && effects'[i].action == b
    {
      if b == a {
        assert effects'[|effects|].action == b;
      } else {
        assert actions[b].recorded.Some?;
        var i :| 0 <= i < |effects| && effects[i].action == b;
        assert effects'[i].action == b;
      }
    }
  }

  /** Asking anew leaves one live request per task and versions. */
  lemma AskedKeeps(s: State, a: nat, after: Task)
    requires Inv(s) && a < |s.actions| && s.actions[a].task < |s.tasks|
    requires Advances(s.tasks[s.actions[a].task], after)
    ensures var t := s.actions[a].task;
            Inv(s.(tasks := s.tasks[t := after], humans := Asked(s, a, after)))
  {
    var t, humans' := s.actions[a].task, Asked(s, a, after);
    var last := |s.humans|;
    forall h | 0 <= h < last && Live(humans'[h]) ensures !SameQuestion(humans'[h], humans'[last]) {
      if SameQuestion(humans'[h], humans'[last]) {
        assert LiveFor(s.humans, t, s.tasks[t], h);
        var found := LatestHuman(s.humans, t, s.tasks[t]).value;
        assert SameQuestion(s.humans[h], s.humans[found]);
        assert false;
      }
    }
  }

  lemma CommitKeeps(s: State, a: nat, after: Task, notices: seq<Notice>)
    requires Inv(s) && a < |s.actions| && s.actions[a].status in {Pending, WaitingEngineer}
    requires s.actions[a].run < |s.runs| && s.actions[a].task < |s.tasks| && s.actions[a].event < |s.events|
    requires Advances(s.tasks[s.actions[a].task], after)
    requires SameVersions(s.tasks[s.actions[a].task], s.runs[s.actions[a].run].lifecycle, s.runs[s.actions[a].run].requirement)
    requires Coordinated(s.tasks[s.actions[a].task])
    requires !NewerQueued(s, s.actions[a].task, s.runs[s.actions[a].run].created)
    requires UniqueKeys(s.events + NoticeEvents(s.actions[a].task, notices, s.now))
    ensures Inv(Commit(s, a, after, notices))
  {
    var done := Commit(s, a, after, notices);
    var t, r := s.actions[a].task, s.actions[a].run;
    var rows := s.(actions := done.actions, runs := done.runs, effects := done.effects);
    EffectKeeps(s, a, done.actions[a], done.runs[r], done.effects[|s.effects|]);
    var moved := rows.(tasks := done.tasks, humans := done.humans);
    if s.actions[a].decision.action.AskHuman? {
      assert Asked(rows, a, after) == done.humans;
      AskedKeeps(rows, a, after);
    } else {
      EditKeeps(rows, t, after);
    }
    NoticesArrive(moved, t, notices, s.now);
  }

  lemma ExecuteKeeps(s: State, a: nat, x: Surroundings)
    requires Inv(s)
    ensures Inv(Execute(s, a, x))
  {
    if Executable(s, a, x) {
      IntentFits(s, a);
      var action := s.actions[a];
      var run := s.runs[action.run];
      if !SameVersions(s.tasks[action.task], run.lifecycle, run.requirement) {
        SupersedeKeeps(s, a);
      } else {
        match Weigh(s, a, x)
        case News => SupersedeKeeps(s, a);
        case EngineerBusy => DeliveryMoves(s, a, action.(status := WaitingEngineer));
        case Invalid => RejectKeeps(s, a);
        case Commits(after, notices) =>
          if Advances(s.tasks[action.task], after) && UniqueKeys(s.events + NoticeEvents(action.task, notices, s.now)) {
            CommitKeeps(s, a, after, notices);
          }
      }
    }
  }

  // ------------------------------------------------------------------ whole runs

  lemma InboxStepKeeps(s: State, step: Step)
    requires Inv(s) && OnInbox(step)
    ensures Inv(Next(s, step))
  {
    match step
    case Elapse(n) => ElapseKeeps(s, n);
    case Edit(t, after) => EditKeeps(s, t, after);
    case Receives(m, cfg, delay) => EnqueueKeeps(s, m, cfg, delay);
    case Notifies(t, key, kind, cfg) => NotifyEngineeringKeeps(s, t, key, kind, cfg);
    case Observes(t, n, cfg, delay) => NotifyKeeps(s, t, n, delay);
    case _ =>
  }

  lemma RunStepKeeps(s: State, step: Step)
    requires Inv(s) && OnRuns(step)
    ensures Inv(Next(s, step))
  {
    match step
    case Claims(q) => ClaimKeeps(s, q);
    case Completes(r, t, d) => CompleteKeeps(s, r, t, d);
    case Fails(r, superseded) => FailKeeps(s, r, superseded);
    case RecoversRuns(locked) => RecoverRunsKeeps(s, locked, |s.runs|);
    case Executes(a, x) => ExecuteKeeps(s, a, x);
    case _ =>
  }

  lemma DeliveryStepKeeps(s: State, step: Step)
    requires Inv(s) && OnDelivery(step)
    ensures Inv(Next(s, step))
  {
    match step
    case ClaimsDelivery(a, cfg, permitted) => ClaimDeliveryKeeps(s, a, cfg, permitted);
    case Posts(a) => PostKeeps(s, a);
    case FailsDelivery(a) => FailDeliveryKeeps(s, a, a < |s.actions| && !s.actions[a].kind.RequestReview?);
    case CompletesDelivery(a, reference) => CompleteDeliveryKeeps(s, a, reference);
    case _ =>
  }

  lemma CheckStepKeeps(s: State, step: Step)
    requires Inv(s) && !OnInbox(step) && !OnRuns(step) && !OnDelivery(step)
    ensures Inv(Next(s, step))
  {
    match step
    case ClaimsCheck(a) => ClaimReconciliationKeeps(s, a);
    case CompletesCheck(a, found) => CompleteReconciliationKeeps(s, a, found);
    case RecoversActions(locked) => RecoverActionsKeeps(s, locked, |s.actions|);
    case RequestsCheck(a) => RequestCheckKeeps(s, a);
    case _ =>
  }

  /** Every step keeps the invariant. */
  lemma StepKeeps(s: State, step: Step)
    requires Inv(s)
    ensures Inv(Next(s, step))
  {
    if OnInbox(step) {
      InboxStepKeeps(s, step);
    } else if OnRuns(step) {
      RunStepKeeps(s, step);
    } else if OnDelivery(step) {
      DeliveryStepKeeps(s, step);
    } else {
      CheckStepKeeps(s, step);
    }
  }

  /** The invariant holds after every prefix of every run. */
  lemma {:induction false} RunKeeps(states: seq<State>, steps: seq<Step>, i: nat)
    requires IsRun(states, steps) && i < |states|
    ensures Inv(states[i])
  {
    if i > 0 {
      RunKeeps(states, steps, i - 1);
      StepKeeps(states[i - 1], steps[i - 1]);
      assert Linked(states, steps, i - 1);
    }
  }
}
