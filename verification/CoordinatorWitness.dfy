/**
 Two short runs of the coordinator, from empty tables: one that strands an admitted event, and
 one that sends a message after its task has moved on.
 */
module CoordinatorWitness {
  import opened Prelude
  import opened CoordinatorProtocol
  import opened CoordinatorEvents

  const CHAT := Settings(Active, {"chat"})
  const OFF := Settings(Off, {})
  const TASK := Task(0, 0, InProgress, true, false, false, "")
  const MOVED := Task(1, 0, InProgress, true, false, false, "")
  const MESSAGE := Incoming(0, "chat", "k", "ann", "please", "MESSAGE_ADDED", "", None, None, "", None, true)
  const REPLY := Decision(Reply, "done")

  function Row(status: EventStatus, run: Option<nat>): Event {
    Event(0, "chat", "k", "ann", "MESSAGE_ADDED", None, None, "", false, status, run, 0, 0)
  }

  function TurnRow(status: RunStatus, decision: Option<Decision>): Run {
    Run(0, Active, status, 0, 0, 0, decision, 0)
  }

  function Start(): State {
    State([TASK], [], [], [], [], 0, map[], [], [])
  }

  function Arrived(): State {
    Start().(events := [Row(Queued, None)])
  }

  function InTurn(): State {
    Start().(events := [Row(Claimed, Some(0))], runs := [TurnRow(RunClaimed, None)])
  }

  function Superseded(): State {
    Start().(events := [Row(Queued, None)], runs := [TurnRow(RunSuperseded, None)])
  }

  function Lost(): State {
    Start().(events := [Row(Suspended, None)], runs := [TurnRow(RunSuperseded, None)])
  }

  function Batch(cfg: Settings): ClaimInput {
    ClaimInput(cfg, Some(0), true, [0], {}, {0}, true)
  }

  lemma MessageArrives()
    ensures Next(Start(), Receives(MESSAGE, CHAT, 0)) == Arrived()
  {
    assert !IsBlank(MESSAGE.body[0]);
    assert !SeenKey(Start(), MESSAGE) && !OwnEffect(Start(), MESSAGE);
    assert FindEcho(Start(), MESSAGE) == None;
    assert Addressed(Start(), MESSAGE) == None;
  }

  lemma OneRowBatch(s: State, cfg: Settings)
    requires s.events == [Row(Queued, None)] && s.now == 0
    ensures ValidPick(s, 0) && ValidBatch(s, 0, [0], {})
    ensures Admitted(s, Batch(cfg), [0]) == if Judge(s, Batch(cfg), 0) == Admit then [0] else []
  {
    assert Eligible(s, 0, 0);
    assert [0][..0] == [];
    assert Admitted(s, Batch(cfg), []) == [];
  }

  lemma RowIsTriaged()
    ensures Triaged(Arrived(), Batch(CHAT), 0, Claimed) == InTurn().events
  {
    assert Judge(Arrived(), Batch(CHAT), 0) == Admit;
  }

  lemma RowIsAdmitted()
    ensures Admitted(Arrived(), Batch(CHAT), [0]) == [0] && Trigger(Arrived(), [0]) == 0
  {
    OneRowBatch(Arrived(), CHAT);
  }

  lemma MessageIsAdmitted()
    ensures Admitted(Arrived(), Batch(CHAT), [0]) == [0] && ClaimBatch(Arrived(), Batch(CHAT), 0) == InTurn()
  {
    RowIsAdmitted();
    RowIsTriaged();
  }

  /** A claim that passes its guards and admits something opens a turn. */
  lemma ClaimOpensTurn(s: State, q: ClaimInput, t: nat, after: State)
    requires q.pick.Some? && ValidPick(s, q.pick.value) && q.taskFree && t == s.events[q.pick.value].task
    requires t < |s.tasks| && !HasActiveRun(s, t) && Coordinated(s.tasks[t])
    requires ValidBatch(s, t, q.batch, q.locked) && Admitted(s, q, q.batch) != []
    requires ClaimBatch(s, q, t) == after
    ensures Next(s, Claims(q)) == after
  {
  }

  lemma MessageIsClaimed()
    ensures Next(Arrived(), Claims(Batch(CHAT))) == InTurn()
  {
    OneRowBatch(Arrived(), CHAT);
    MessageIsAdmitted();
    ClaimOpensTurn(Arrived(), Batch(CHAT), 0, InTurn());
  }

  lemma TurnIsSuperseded()
    ensures Next(InTurn(), Fails(0, true)) == Superseded()
  {
  }

  lemma EventIsSuspended()
    ensures Next(Superseded(), Claims(Batch(OFF))) == Lost()
  {
    var s := Superseded();
    OneRowBatch(s, OFF);
    assert !HasActiveRun(s, 0);
    assert Judge(s, Batch(OFF), 0) == Suspend;
  }

  /**
   An event was admitted to a turn, the turn was superseded, and a claim while the provider was
   switched off suspended it: no later step of any continuation changes it again.
   */
  lemma AdmittedEventIsStranded() returns (states: seq<State>, steps: seq<Step>)
    ensures IsRun(states, steps) && |steps| == 4
    ensures |states[2].events| == 1 && states[2].events[0].status == Claimed && states[2].events[0].run == Some(0)
    ensures StrandedBy(states, 4, 0)
  {
    steps := [Receives(MESSAGE, CHAT, 0), Claims(Batch(CHAT)), Fails(0, true), Claims(Batch(OFF))];
    states := [Start(), Arrived(), InTurn(), Superseded(), Lost()];
    MessageArrives();
    MessageIsClaimed();
    TurnIsSuperseded();
    EventIsSuspended();
    assert Linked(states, steps, 0) && Linked(states, steps, 1) && Linked(states, steps, 2) && Linked(states, steps, 3);
    forall i | 0 <= i < |steps| ensures Linked(states, steps, i) {
      assert i == 0 || i == 1 || i == 2 || i == 3;
    }
  }

  // ------------------------------------------------------- a message sent too late

  function ActionRow(status: ActionStatus, recorded: Option<Recorded>, attempted: Option<int>): Action {
    Action(0, 0, Reply, status, REPLY, 0, recorded, false, None, 0, attempted, None)
  }

  const RECORDED := Recorded("chat", "done", 0, 0)

  function Decided(): State {
    Start().(events := [Row(Processed, Some(0))], runs := [TurnRow(RunReady, Some(REPLY))],
             actions := [ActionRow(Pending, None, None)])
  }

  function Replied(): State {
    Start().(events := [Row(Processed, Some(0))], runs := [TurnRow(RunCompleted, Some(REPLY))],
             actions := [ActionRow(DeliveryPending, Some(RECORDED), None)], effects := [Effect(0, TASK, TASK, true)])
  }

  function HeldDelivery(task: Task): State {
    Replied().(tasks := [task], actions := [ActionRow(Sending, Some(RECORDED), Some(0))], deliveries := map[0 := Held])
  }

  function Sent(): State {
    HeldDelivery(MOVED).(deliveries := map[0 := Posted], posts := [0])
  }

  const QUIET := Surroundings(CHAT, {0}, false, true, true, Raises)

  lemma TurnDecides()
    ensures Next(InTurn(), Completes(0, 0, REPLY)) == Decided()
  {
  }

  lemma ReplyCommits()
    ensures Next(Decided(), Executes(0, QUIET)) == Replied()
  {
    var s := Decided();
    assert SourcesHold(s, 0, QUIET);
    assert Weigh(s, 0, QUIET) == Commits(TASK, []);
    assert s.events + NoticeEvents(0, [], 0) == s.events;
    assert UniqueKeys(s.events);
    assert !NewerQueued(s, 0, 0);
    assert Resolve(s, 0, Commits(TASK, [])) == Commit(s, 0, TASK, []);
    assert s.tasks[0 := TASK] == s.tasks;
  }

  lemma DeliveryIsClaimed()
    ensures Next(Replied(), ClaimsDelivery(0, CHAT, {0})) == HeldDelivery(TASK)
  {
  }

  lemma TaskMoves()
    ensures Next(HeldDelivery(TASK), Edit(0, MOVED)) == HeldDelivery(MOVED)
  {
  }

  lemma MessageIsSent()
    ensures Next(HeldDelivery(MOVED), Posts(0)) == Sent()
  {
  }

  /** A run of the system that sends a message to a task whose versions are no longer those of its effect. */
  lemma SentAfterTheTaskMoved() returns (states: seq<State>, steps: seq<Step>)
    ensures IsRun(states, steps) && |steps| == 7 && steps[6] == Posts(0)
    ensures states[6].posts == [] && states[7].posts == [0]
    ensures |states[6].actions| == 1 && |states[6].tasks| == 1 && states[6].actions[0].recorded.Some?
    ensures var recorded := states[6].actions[0].recorded.value;
            !SameVersions(states[6].tasks[0], recorded.lifecycle, recorded.requirement)
  {
    steps := [Receives(MESSAGE, CHAT, 0), Claims(Batch(CHAT)), Completes(0, 0, REPLY), Executes(0, QUIET),
              ClaimsDelivery(0, CHAT, {0}), Edit(0, MOVED), Posts(0)];
    states := [Start(), Arrived(), InTurn(), Decided(), Replied(), HeldDelivery(TASK), HeldDelivery(MOVED), Sent()];
    MessageArrives();
    MessageIsClaimed();
    TurnDecides();
    ReplyCommits();
    DeliveryIsClaimed();
    TaskMoves();
    MessageIsSent();
    forall i | 0 <= i < |steps| ensures Linked(states, steps, i) {
      assert i == 0 || i == 1 || i == 2 || i == 3 || i == 4 || i == 5 || i == 6;
    }
  }
}
