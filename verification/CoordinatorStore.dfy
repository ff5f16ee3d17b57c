/**
 The coordinator's repositories: tables updated in place, row by row, in the order of the
 code. Each method is one transaction and leaves exactly the state of its specification in
 CoordinatorProtocol. Query results and what is read elsewhere are parameters.
 */
module CoordinatorStore {
  import opened Prelude
  import opened CoordinatorProtocol
  import Protocol = CoordinatorProtocol
  import Invariant = CoordinatorInvariant

  /** Raised by `complete`: the decision is about another task, or about an older situation. */
  datatype CompletionError = WrongTask | SituationChanged

  /** One delivery from claim to settlement: refused, or posted if it got that far, and settled by the answer. */
  ghost function Delivered(s: State, a: nat, cfg: Settings, permitted: set<nat>, reached: bool, answer: Option<string>): State {
    var claimed := Protocol.ClaimDelivery(s, a, cfg, permitted);
    if a >= |s.actions| || a !in claimed.deliveries then claimed
    else
      var sent := if reached then Post(claimed, a) else claimed;
      if answer.Some? then Protocol.CompleteDelivery(sent, a, answer.value)
      else Protocol.FailDelivery(sent, a, !s.actions[a].kind.RequestReview?)
  }

  class Store {
    var tasks: seq<Task>
    var events: seq<Event>
    var runs: seq<Run>
    var actions: seq<Action>
    var humans: seq<HumanRequest>
    var now: int
    ghost var deliveries: map<nat, Delivery>
    ghost var effects: seq<Effect>
    ghost var posts: seq<nat>

    ghost function View(): State
      reads this
    {
      State(tasks, events, runs, actions, humans, now, deliveries, effects, posts)
    }

    constructor (tasks: seq<Task>, now: int)
      ensures Initial(View()) && this.tasks == tasks && this.now == now
    {
      this.tasks, this.now := tasks, now;
      events, runs, actions, humans := [], [], [], [];
      deliveries, effects, posts := map[], [], [];
    }

    // ---------------------------------------------------------------- processor

    /** The bulk UPDATE that gives every event of a run one status. */
    method SetRunEvents(r: nat, status: EventStatus)
      modifies this`events
      ensures events == SetBatch(old(events), r, status)
    {
      var i := 0;
      while i < |events|
        invariant 0 <= i <= |events| == |old(events)|
        invariant forall e :: 0 <= e < i ==> events[e] == SetBatch(old(events), r, status)[e]
        invariant forall e :: i <= e < |events| ==> events[e] == old(events)[e]
      {
        if events[i].run == Some(r) {
          events := events[i := events[i].(status := status)];
        }
        i := i + 1;
      }
    }

    /** `requeue_run_events`. */
    method RequeueRunEvents(r: nat)
      modifies this`events
      ensures events == Requeue(old(events), r, now)
    {
      var i := 0;
      while i < |events|
        invariant 0 <= i <= |events| == |old(events)|
        invariant forall e :: 0 <= e < i ==> events[e] == Requeue(old(events), r, now)[e]
        invariant forall e :: i <= e < |events| ==> events[e] == old(events)[e]
      {
        if events[i].run == Some(r) {
          events := events[i := events[i].(status := Queued, run := None, available := now)];
        }
        i := i + 1;
      }
    }

    /** The newest admitted event from outside engineering, else the newest of all. */
    method PickTrigger(admitted: seq<nat>) returns (latest: nat)
      requires admitted != [] && forall i :: 0 <= i < |admitted| ==> admitted[i] < |events|
      ensures latest == Trigger(View(), admitted)
    {
      var i := |admitted|;
      while i > 0
        invariant 0 <= i <= |admitted|
        invariant forall j :: i <= j < |admitted| ==> events[admitted[j]].provider == "engineering"
      {
        i := i - 1;
        if events[admitted[i]].provider != "engineering" {
          TriggerIs(View(), admitted, i);
          return admitted[i];
        }
      }
      TriggerIsLast(View(), admitted);
      latest := admitted[|admitted| - 1];
    }

    /** The verdict of every row of the batch; admitted rows are left for the new run. */
    method TriageBatch(q: ClaimInput) returns (admitted: seq<nat>)
      requires Distinct(q.batch) && forall i :: 0 <= i < |q.batch| ==> q.batch[i] < |events|
      modifies this`events
      ensures admitted == Admitted(old(View()), q, q.batch)
      ensures |events| == |old(events)|
      ensures forall e :: 0 <= e < |events| ==> events[e] == TriagedRow(old(View()), q, e)
    {
      ghost var before := View();
      admitted := [];
      var i := 0;
      while i < |q.batch|
        invariant 0 <= i <= |q.batch| && View() == before.(events := events)
        invariant admitted == Admitted(before, q, q.batch[..i]) && TriagedSoFar(before, q, events, i)
      {
        TriageStep(before, q, events, i);
        admitted := TriageOne(q, q.batch[i], admitted);
        i := i + 1;
      }
      assert q.batch[..i] == q.batch;
    }

    /** The verdict of one row. */
    method TriageOne(q: ClaimInput, item: nat, admitted: seq<nat>) returns (extended: seq<nat>)
      requires item < |events|
      modifies this`events
      ensures events == old(events)[item := match Judge(old(View()), q, item)
        case Suspend => old(events)[item].(status := Suspended)
        case Refuse => old(events)[item].(status := Unauthorized)
        case Admit => old(events)[item]]
      ensures extended == if Judge(old(View()), q, item) == Admit then admitted + [item] else admitted
    {
      extended := admitted;
      if q.cfg.mode == Off || Channel(events[item]) !in q.cfg.providers {
        events := events[item := events[item].(status := Suspended)];
      } else if item in q.permitted {
        extended := admitted + [item];
      } else {
        events := events[item := events[item].(status := Unauthorized)];
      }
    }

    /** The admitted rows join run `r`. */
    method JoinRun(admitted: seq<nat>, r: nat, status: EventStatus)
      requires forall i :: 0 <= i < |admitted| ==> admitted[i] < |events|
      modifies this`events
      ensures |events| == |old(events)|
      ensures forall e :: 0 <= e < |events| ==>
        events[e] == if e in admitted then old(events)[e].(status := status, run := Some(r)) else old(events)[e]
    {
      var i := 0;
      while i < |admitted|
        invariant 0 <= i <= |admitted| && |events| == |old(events)|
        invariant forall e :: 0 <= e < |events| ==>
          events[e] == if e in admitted[..i] then old(events)[e].(status := status, run := Some(r)) else old(events)[e]
      {
        assert admitted[..i + 1] == admitted[..i] + [admitted[i]];
        events := events[admitted[i] := events[admitted[i]].(status := status, run := Some(r))];
        i := i + 1;
      }
      assert admitted[..i] == admitted;
    }

    /** `claim`: the batch that the query returns is valid for the picked event's task. */
    method Claim(q: ClaimInput) returns (claimed: Option<nat>)
      requires q.pick.Some? && ValidPick(View(), q.pick.value) ==>
        ValidBatch(View(), events[q.pick.value].task, q.batch, q.locked)
      modifies this`events, this`runs
      ensures View() == Protocol.Claim(old(View()), q)
      ensures claimed == if |runs| > |old(runs)| && q.requirementKnown then Some(|old(runs)|) else None
    {
      if q.pick.None? || !ValidPick(State(tasks, events, runs, actions, humans, now, map[], [], []), q.pick.value) {
        return None;
      }
      ghost var before := View();
      assert ValidPick(before, q.pick.value);
      var pick := q.pick.value;
      var t := events[pick].task;
      if !q.taskFree || t >= |tasks| {
        return None;
      }
      if exists r :: 0 <= r < |runs| && runs[r].task == t && Busy(runs[r].status) {
        return None;
      }
      assert !HasActiveRun(before, t);
      if !Coordinated(tasks[t]) {
        events := events[pick := events[pick].(status := Suspended)];
        return None;
      }
      claimed := ClaimRows(q, t);
    }

    /** The locked part of `claim`, once the task is known to be free. */
    method ClaimRows(q: ClaimInput, t: nat) returns (claimed: Option<nat>)
      requires t < |tasks| && Distinct(q.batch) && forall i :: 0 <= i < |q.batch| ==> q.batch[i] < |events|
      modifies this`events, this`runs
      ensures View() == if Admitted(old(View()), q, q.batch) == []
                        then old(View()).(events := Triaged(old(View()), q, |old(runs)|, Claimed))
                        else ClaimBatch(old(View()), q, t)
      ensures claimed == if |runs| > |old(runs)| && q.requirementKnown then Some(|old(runs)|) else None
    {
      ghost var before := View();
      var admitted := TriageBatch(q);
      if admitted == [] {
        TriagedPointwise(before, q, events, |before.runs|, Claimed);
        return None;
      }
      ghost var triaged := events;
      TriggerKeeps(before, View(), admitted);
      var r := OpenRun(q, t, admitted);
      JoinedPointwise(before, q, admitted, triaged, events, r, if q.requirementKnown then Claimed else EventFailed);
      claimed := if q.requirementKnown then Some(r) else None;
    }

    /** The new run's row, and the admitted events that join it. */
    method OpenRun(q: ClaimInput, t: nat, admitted: seq<nat>) returns (r: nat)
      requires t < |tasks| && admitted != [] && forall i :: 0 <= i < |admitted| ==> admitted[i] < |events|
      modifies this`events, this`runs
      ensures r == |old(runs)| && |events| == |old(events)|
      ensures runs == old(runs) + [Run(t, q.cfg.mode, if q.requirementKnown then RunClaimed else RunFailed,
        tasks[t].requirement, tasks[t].lifecycle, Trigger(old(View()), admitted), None, now)]
      ensures forall e :: 0 <= e < |events| ==>
        events[e] == if e in admitted
          then old(events)[e].(status := if q.requirementKnown then Claimed else EventFailed, run := Some(r)) else old(events)[e]
    {
      var latest := PickTrigger(admitted);
      r := |runs|;
      runs := runs + [Run(t, q.cfg.mode, if q.requirementKnown then RunClaimed else RunFailed,
                          tasks[t].requirement, tasks[t].lifecycle, latest, None, now)];
      JoinRun(admitted, r, if q.requirementKnown then Claimed else EventFailed);
    }

    /** `ensure_authorized`: what makes a watcher stop an inference. */
    method EnsureAuthorized(r: nat) returns (verdict: Result<(), CompletionError>)
      ensures verdict.Ok? <==>
        Authorized(View(), r) && SameVersions(tasks[runs[r].task], runs[r].lifecycle, runs[r].requirement)
      ensures verdict == Err(SituationChanged) <==>
        Authorized(View(), r) && !SameVersions(tasks[runs[r].task], runs[r].lifecycle, runs[r].requirement)
    {
      if r >= |runs| || runs[r].task >= |tasks| {
        return Err(WrongTask);
      }
      var run, task := runs[r], tasks[runs[r].task];
      if run.status != RunClaimed || !Coordinated(task) {
        return Err(WrongTask);
      }
      if !SameVersions(task, run.lifecycle, run.requirement) {
        return Err(SituationChanged);
      }
      verdict := Ok(());
    }

    method Complete(r: nat, t: nat, d: Decision) returns (verdict: Result<(), CompletionError>)
      modifies this`events, this`runs, this`actions
      ensures View() == Protocol.Complete(old(View()), r, t, d)
      ensures verdict.Err? ==> View() == old(View())
      ensures verdict == Err(WrongTask) <==> r < |old(runs)| && old(runs)[r].status == RunClaimed && old(runs)[r].task != t
      ensures verdict == Err(SituationChanged) <==>
        r < |old(runs)| && old(runs)[r].status == RunClaimed && old(runs)[r].task == t
        && (t >= |tasks| || !SameVersions(tasks[t], old(runs)[r].lifecycle, old(runs)[r].requirement))
    {
      if r >= |runs| || runs[r].status != RunClaimed {
        return Ok(());
      }
      if runs[r].task != t {
        return Err(WrongTask);
      }
      if t >= |tasks| || !SameVersions(tasks[t], runs[r].lifecycle, runs[r].requirement) {
        return Err(SituationChanged);
      }
      runs := runs[r := runs[r].(decision := Some(d))];
      runs := runs[r := runs[r].(status := if runs[r].mode == Shadow then RunShadow else RunReady)];
      if runs[r].mode == Active {
        actions := actions + [Action(r, t, d.action, Pending, d, runs[r].trigger, None, false, None, now, None, None)];
      }
      SetRunEvents(r, Processed);
      verdict := Ok(());
    }

    method Fail(r: nat, superseded: bool)
      modifies this`events, this`runs
      ensures View() == Protocol.Fail(old(View()), r, superseded)
    {
      if r < |runs| && runs[r].status == RunClaimed {
        runs := runs[r := runs[r].(status := if superseded then RunSuperseded else RunFailed)];
        if superseded {
          RequeueRunEvents(r);
        } else {
          SetRunEvents(r, EventFailed);
        }
      }
    }

    /** The end of `process_one`: `_decide` after its last model call, or the `except` branch. */
    method SettleTurn(r: nat, t: nat, ending: Ending)
      modifies this`events, this`runs, this`actions
      ensures View() == Protocol.Settle(old(View()), r, t, ending)
    {
      match ending
      case Advanced => Fail(r, true);
      case Broken => Fail(r, false);
      case Decides(d) =>
        var allowed := EnsureAuthorized(r);
        if allowed.Err? {
          Fail(r, allowed.error.SituationChanged?);
          return;
        }
        var written := Complete(r, t, d);
        if written.Err? {
          Fail(r, written.error.SituationChanged?);
        }
    }

    /** The recovery sweep over stale claims, run by run. */
    method RecoverRuns(locked: set<nat>)
      requires Invariant.EventsFit(events, runs)
      modifies this`events, this`runs
      ensures View() == Protocol.RecoverRuns(old(View()), locked)
    {
      ghost var before := View();
      var r := 0;
      Invariant.NoneRecovered(before, locked);
      while r < |runs|
        invariant 0 <= r <= |runs| == |before.runs| && now == before.now
        invariant View() == Invariant.RunsRecoveredUpTo(before, locked, r)
      {
        Invariant.RecoverOneRun(before, locked, r + 1);
        Invariant.NotYetRecovered(before, locked, r);
        if runs[r].status == RunClaimed && runs[r].created < now - FIVE_MINUTES && r !in locked {
          FailOne(r);
        }
        r := r + 1;
      }
      Invariant.AllRunsRecovered(before, locked);
    }

    method FailOne(r: nat)
      requires r < |runs| && runs[r].status == RunClaimed
      modifies this`events, this`runs
      ensures View() == Protocol.Fail(old(View()), r, false)
    {
      runs := runs[r := runs[r].(status := RunFailed)];
      SetRunEvents(r, EventFailed);
    }

    // ------------------------------------------------------------------ actions

    /** The loop over the run's sources: every one is on an active channel and still permitted. */
    method SourcesPermitted(r: nat, x: Surroundings) returns (ok: bool)
      ensures ok <==> forall e :: 0 <= e < |events| && FromRun(View(), r, e) ==>
        ModeOf(x.cfg, Channel(events[e])) == Active && e in x.permitted
    {
      var e := 0;
      while e < |events|
        invariant 0 <= e <= |events|
        invariant forall i :: 0 <= i < e && FromRun(View(), r, i) ==> ModeOf(x.cfg, Channel(events[i])) == Active && i in x.permitted
      {
        if events[e].run == Some(r) && (ModeOf(x.cfg, Channel(events[e])) != Active || e !in x.permitted) {
          assert FromRun(View(), r, e);
          return false;
        }
        e := e + 1;
      }
      return true;
    }

    /** Whether some source is about a revision other than the task's. */
    method OlderRevision(r: nat, revision: string) returns (found: bool)
      ensures found <==> !(forall e :: 0 <= e < |events| && FromRun(View(), r, e) && events[e].provider == "github" ==>
        events[e].headSha == "" || events[e].headSha == revision)
    {
      var e := 0;
      while e < |events|
        invariant 0 <= e <= |events|
        invariant forall i :: 0 <= i < e && FromRun(View(), r, i) && events[i].provider == "github" ==>
          events[i].headSha == "" || events[i].headSha == revision
      {
        if events[e].run == Some(r) && events[e].provider == "github" && events[e].headSha != "" && events[e].headSha != revision {
          assert FromRun(View(), r, e);
          return true;
        }
        e := e + 1;
      }
      return false;
    }

    /** The checks on the run's sources, one after the other. */
    method VetSources(a: nat, x: Surroundings) returns (ok: bool)
      requires a < |actions| && actions[a].run < |runs| && actions[a].task < |tasks|
      ensures ok == SourcesHold(View(), a, x)
    {
      var action := actions[a];
      var task := tasks[action.task];
      if action.event >= |events| || action.event !in x.permitted {
        return false;
      }
      if !task.teamReady || task.archived {
        return false;
      }
      var permitted := SourcesPermitted(action.run, x);
      if !permitted {
        return false;
      }
      if ModeOf(x.cfg, Channel(events[action.event])) != Active {
        return false;
      }
      var older := OlderRevision(action.run, task.revision);
      return Passive(action.decision.action) || !older;
    }

    method VetEngineering(a: nat, x: Surroundings) returns (verdict: Option<Outcome>)
      requires a < |actions|
      ensures verdict == EngineeringVerdict(View(), a, x)
    {
      var action := actions[a];
      var d := action.decision.action;
      var engineering := d.Implement? || d.Repair?;
      if engineering && exists e :: 0 <= e < |events| && events[e].run == Some(action.run) && events[e].truncated {
        return Some(Invalid);
      }
      if d.RequestReview? && (ModeOf(x.cfg, "github") != Active || !x.scope) {
        return Some(Invalid);
      }
      if (d.RequestValidation? || engineering) && !x.scope {
        return Some(Invalid);
      }
      if engineering && x.busy {
        return Some(EngineerBusy);
      }
      if engineering && !x.settled {
        return Some(Invalid);
      }
      return None;
    }

    /** The checks of `_apply`, in order, up to the first write. */
    method Vet(a: nat, x: Surroundings) returns (verdict: Option<Outcome>)
      requires a < |actions| && actions[a].run < |runs| && actions[a].task < |tasks|
      ensures verdict.Some? ==> verdict.value == Weigh(View(), a, x) && !verdict.value.Commits?
      ensures verdict.None? ==> actions[a].event < |events|
      ensures verdict.None? && !Dispatches(actions[a].decision.action) ==>
        Weigh(View(), a, x) == Commits(tasks[actions[a].task], [])
      ensures verdict.None? && Dispatches(actions[a].decision.action) ==>
        Weigh(View(), a, x) == if x.control.Raises? then Invalid else Commits(x.control.task, x.control.notices)
    {
      var action := actions[a];
      var run := runs[action.run];
      var t := action.task;
      var task := tasks[t];
      var permitted := VetSources(a, x);
      if !permitted {
        return Some(Invalid);
      }
      var human := LatestHuman(humans, t, task);
      var continuation := human.Some? && humans[human.value].status == Answered
        && exists e :: 0 <= e < |events| && events[e].run == Some(action.run)
             && events[e].kind == "HUMAN_RESPONSE" && events[e].humanRequest == human;
      assert continuation == Continuation(View(), action.run, t);
      if !EffectValid(action.decision, task, run.lifecycle, run.requirement, continuation, events[action.event].provider == "engineering") {
        return Some(Invalid);
      }
      if exists e :: 0 <= e < |events| && events[e].task == t && events[e].status == Queued && events[e].created > run.created {
        return Some(News);
      }
      verdict := VetEngineering(a, x);
    }

    /**
     `_apply`: the checks, then the effect. On any outcome but a commit the writes made so
     far are the caller's to roll back.
     */
    method Apply(a: nat, x: Surroundings) returns (outcome: Outcome)
      requires a < |actions| && actions[a].run < |runs| && actions[a].task < |tasks|
      modifies this`tasks, this`events, this`runs, this`actions, this`humans, this`effects
      ensures outcome == Weigh(old(View()), a, x)
      ensures outcome.Commits? ==> old(actions)[a].event < |old(events)|
      ensures outcome.Commits? ==> View() == Commit(old(View()), a, outcome.task, outcome.notices)
    {
      ghost var before := View();
      var verdict := Vet(a, x);
      if verdict.Some? {
        return verdict.value;
      }
      var action, t := actions[a], actions[a].task;
      var event, d := events[action.event], action.decision;
      var human := LatestHuman(humans, t, tasks[t]);
      if d.action.AskHuman? && human.Some? {
        humans := humans[human.value := humans[human.value].(status := Withdrawn)];
      }
      var after, notices := tasks[t], [];
      if Dispatches(d.action) {
        if x.control.Raises? {
          return Invalid;
        }
        after, notices := x.control.task, x.control.notices;
        tasks := tasks[t := after];
        events := events + NoticeEvents(t, notices, now);
      }
      if d.action.AskHuman? {
        humans := humans + [HumanRequest(t, action.run, d.message, Open, after.requirement, after.lifecycle, None, now)];
      }
      RecordEffect(a, event, after);
      ghost var current := !NewerQueued(before, t, before.runs[action.run].created);
      effects := effects + [Effect(a, before.tasks[t], after, current)];
      assert tasks == before.tasks[t := after];
      assert events == before.events + NoticeEvents(t, notices, now);
      outcome := Commits(after, notices);
    }

    /** `_record_effect`: what was done, and the versions it left the task at. */
    method RecordEffect(a: nat, event: Event, after: Task)
      requires a < |actions| && actions[a].run < |runs|
      modifies this`runs, this`actions
      ensures actions == old(actions)[a := old(actions)[a].(
        status := DeliveryStatus(old(actions)[a].decision),
        recorded := Some(Recorded(Channel(event), OutboundMessage(old(actions)[a].decision), after.requirement, after.lifecycle)))]
      ensures runs == old(runs)[old(actions)[a].run := old(runs)[old(actions)[a].run].(status := RunCompleted)]
    {
      var message := OutboundMessage(actions[a].decision);
      actions := actions[a := actions[a].(recorded := Some(Recorded(Channel(event), message, after.requirement, after.lifecycle)))];
      actions := actions[a := actions[a].(status := DeliveryStatus(actions[a].decision))];
      runs := runs[actions[a].run := runs[actions[a].run].(status := RunCompleted)];
    }

    /** An intent and its run are dropped, and their batch is queued again. */
    method SupersedeIntent(a: nat)
      requires a < |actions| && actions[a].run < |runs|
      modifies this`events, this`runs, this`actions
      ensures View() == Protocol.Supersede(old(View()), a)
    {
      var r := actions[a].run;
      actions := actions[a := actions[a].(status := Superseded)];
      runs := runs[r := runs[r].(status := RunSuperseded)];
      RequeueRunEvents(r);
    }

    /** The savepoint of `execute_one`: the effect commits or is rolled back, and its outcome is recorded. */
    method TryEffect(a: nat, x: Surroundings)
      requires a < |actions| && actions[a].run < |runs| && actions[a].task < |tasks|
      modifies this`tasks, this`events, this`runs, this`actions, this`humans, this`effects
      ensures Weigh(old(View()), a, x).Commits? ==> old(actions)[a].event < |old(events)|
      ensures View() == Resolve(old(View()), a, Weigh(old(View()), a, x))
    {
      var r := actions[a].run;
      var savepoint := State(tasks, events, runs, actions, humans, now, map[], [], []);
      ghost var log := effects;
      var outcome := Apply(a, x);
      if outcome.Commits? && Advances(savepoint.tasks[savepoint.actions[a].task], outcome.task) && UniqueKeys(events) {
        return;
      }
      tasks, events, runs := savepoint.tasks, savepoint.events, savepoint.runs;
      actions, humans, effects := savepoint.actions, savepoint.humans, log;
      match outcome
      case News => SupersedeIntent(a);
      case EngineerBusy =>
        actions := actions[a := actions[a].(status := WaitingEngineer)];
      case Invalid =>
        actions := actions[a := actions[a].(status := Rejected)];
        runs := runs[r := runs[r].(status := RunRejected)];
      case Commits(_, _) =>
    }

    /** `execute_one`, for the row that its query returned. */
    method ExecuteOne(a: nat, x: Surroundings)
      modifies this`tasks, this`events, this`runs, this`actions, this`humans, this`effects
      ensures View() == Protocol.Execute(old(View()), a, x)
    {
      if !Executable(State(tasks, events, runs, actions, humans, now, map[], [], []), a, x)
         || actions[a].run >= |runs| || actions[a].task >= |tasks| {
        return;
      }
      assert Executable(View(), a, x);
      var r := actions[a].run;
      if !SameVersions(tasks[actions[a].task], runs[r].lifecycle, runs[r].requirement) {
        SupersedeIntent(a);
      } else {
        TryEffect(a, x);
      }
    }

    // ----------------------------------------------------------------- delivery

    method ClaimDelivery(a: nat, cfg: Settings, permitted: set<nat>) returns (claimed: bool)
      modifies this`actions, this`deliveries
      ensures View() == Protocol.ClaimDelivery(old(View()), a, cfg, permitted)
      ensures claimed <==> a < |old(actions)| && old(actions)[a].status == DeliveryPending && actions[a].status == Sending
      ensures claimed ==> a in deliveries && deliveries[a] == Held
    {
      claimed := false;
      if a >= |actions| || actions[a].status != DeliveryPending {
        return;
      }
      if !Deliverable(State(tasks, events, runs, actions, humans, now, map[], [], []), a, cfg, permitted) {
        assert !Deliverable(View(), a, cfg, permitted);
        actions := actions[a := actions[a].(status := Rejected)];
        return;
      }
      assert Deliverable(View(), a, cfg, permitted);
      actions := actions[a := actions[a].(status := Sending, attempted := Some(now))];
      if actions[a].kind.RequestReview? && ModeOf(cfg, "github") != Active {
        actions := actions[a := actions[a].(status := Rejected)];
        return;
      }
      deliveries := deliveries[a := Held];
      claimed := true;
    }

    method FailDelivery(a: nat, reconcile: bool)
      requires a < |actions| && a in deliveries
      modifies this`actions, this`deliveries
      ensures View() == Protocol.FailDelivery(old(View()), a, reconcile)
    {
      deliveries := deliveries - {a};
      if actions[a].status == Executed {
        return;
      }
      actions := actions[a := actions[a].(reconcile := reconcile)];
      actions := actions[a := actions[a].(status := Unknown)];
    }

    method CompleteDelivery(a: nat, reference: string)
      requires a < |actions| && a in deliveries && deliveries[a] == Posted
      modifies this`actions, this`deliveries
      ensures View() == Protocol.CompleteDelivery(old(View()), a, reference)
    {
      deliveries := deliveries - {a};
      actions := actions[a := actions[a].(status := Executed, reference := Some(reference))];
    }

    /**
     `deliver_one` from claim to settlement when nothing interleaves. `reached` says whether
     the request got to the provider, `answer` the reference it returned, if it returned one.
     */
    method DeliverOne(a: nat, cfg: Settings, permitted: set<nat>, reached: bool, answer: Option<string>) returns (handled: bool)
      requires answer.Some? ==> reached
      requires a !in deliveries
      modifies this`actions, this`deliveries, this`posts
      ensures handled <==> a < |old(actions)| && old(actions)[a].status == DeliveryPending
      ensures View() == Delivered(old(View()), a, cfg, permitted, reached, answer)
      ensures deliveries == old(deliveries) && (posts == old(posts) || (handled && posts == old(posts) + [a]))
    {
      handled := a < |actions| && actions[a].status == DeliveryPending;
      var claimed := ClaimDelivery(a, cfg, permitted);
      if !claimed {
        return;
      }
      var kind := actions[a].kind;
      if reached {
        deliveries, posts := deliveries[a := Posted], posts + [a];
      }
      if answer.Some? {
        CompleteDelivery(a, answer.value);
      } else {
        FailDelivery(a, !kind.RequestReview?);
      }
    }

    /** `reconcile_one`; `found` is what the check returned, nothing if it raised. */
    method ReconcileOne(a: nat, found: Option<string>) returns (handled: bool)
      modifies this`actions
      ensures var claimed := Protocol.ClaimReconciliation(old(View()), a);
              && (handled <==> claimed != old(View()))
              && View() == if handled then Protocol.CompleteReconciliation(claimed, a, found) else old(View())
    {
      handled := ClaimReconciliation(a);
      if handled {
        CompleteReconciliation(a, found);
      }
    }

    method ClaimReconciliation(a: nat) returns (claimed: bool)
      modifies this`actions
      ensures View() == Protocol.ClaimReconciliation(old(View()), a)
      ensures claimed <==> View() != old(View())
    {
      claimed := false;
      if a >= |actions| || actions[a].status != Unknown || !actions[a].reconcile || actions[a].attempted.None? {
        return;
      }
      actions := actions[a := actions[a].(status := Reconciling)];
      actions := actions[a := actions[a].(reconcile := false, checking := Some(now))];
      assert actions[a].status != old(actions)[a].status;
      claimed := true;
    }

    method CompleteReconciliation(a: nat, reference: Option<string>)
      requires a < |actions| && Dispatched(actions[a].status) && actions[a].checking.Some?
      modifies this`actions
      ensures View() == Protocol.CompleteReconciliation(old(View()), a, reference)
    {
      if actions[a].status == Executed {
        return;
      }
      actions := actions[a := actions[a].(status := if reference.Some? && reference.value != "" then Executed else Unknown)];
      actions := actions[a := actions[a].(reference := reference)];
    }

    /** The recovery sweep over interrupted deliveries, then over interrupted checks. */
    method RecoverActions(locked: set<nat>)
      modifies this`actions
      ensures View() == Protocol.RecoverActions(old(View()), locked)
    {
      ghost var before := View();
      var a := 0;
      while a < |actions|
        invariant 0 <= a <= |actions| == |before.actions|
        invariant forall i :: 0 <= i < a ==> actions[i] == Interrupted(before, locked, i)
        invariant forall i :: a <= i < |actions| ==> actions[i] == before.actions[i]
      {
        var row := actions[a];
        if row.status == Sending && row.attempted.Some? && row.attempted.value < now - TWO_MINUTES && a !in locked {
          actions := actions[a := row.(status := Unknown, reconcile := !row.kind.RequestReview?)];
        }
        a := a + 1;
      }
      a := 0;
      while a < |actions|
        invariant 0 <= a <= |actions| == |before.actions|
        invariant forall i :: 0 <= i < a ==> actions[i] == Protocol.RecoverActions(before, locked).actions[i]
        invariant forall i :: a <= i < |actions| ==> actions[i] == Interrupted(before, locked, i)
      {
        var row := actions[a];
        if row.status == Reconciling && row.checking.Some? && row.checking.value < now - TWO_MINUTES && a !in locked {
          actions := actions[a := row.(status := Unknown)];
        }
        a := a + 1;
      }
      assert actions == Protocol.RecoverActions(before, locked).actions;
    }

    // -------------------------------------------------------------------- inbox

    /** `enqueue`; the result says whether coordination is active for the provider. */
    method Enqueue(m: Incoming, cfg: Settings, delay: nat) returns (active: Result<bool, string>)
      modifies this`events, this`actions, this`humans
      ensures View() == Protocol.Enqueue(old(View()), m, cfg, delay)
      ensures active.Err? <==> m.task < |tasks| && ModeOf(cfg, m.provider) != Off && (Blank(m.body) || |m.body| > MAX_BODY)
      ensures active.Ok? ==> active.value == (m.task < |tasks| && ModeOf(cfg, m.provider) == Active)
    {
      ghost var before := View();
      var mode := ModeOf(cfg, m.provider);
      if m.task >= |tasks| || mode == Off {
        return Ok(false);
      }
      if Blank(m.body) || |m.body| > MAX_BODY {
        return Err("Coordinator messages must contain 1-16000 characters");
      }
      var state := State(tasks, events, runs, actions, humans, now, map[], [], []);
      if SeenKey(state, m) || OwnEffect(state, m) {
        assert SeenKey(before, m) || OwnEffect(before, m);
        return Ok(mode == Active);
      }
      assert !SeenKey(before, m) && !OwnEffect(before, m);
      Arrive(m, cfg, delay);
      return Ok(mode == Active);
    }

    /** `enqueue` after its dedupe: echo confirmation, authority, and the event itself. */
    method Arrive(m: Incoming, cfg: Settings, delay: nat)
      requires m.task < |tasks|
      modifies this`events, this`actions, this`humans
      ensures View() == Protocol.Arrive(old(View()), m, cfg, delay)
    {
      ghost var before := View();
      var state := State(tasks, events, runs, actions, humans, now, map[], [], []);
      var pending := FindEcho(state, m);
      SameEcho(state, before, m);
      if pending.Some? {
        if m.effect != "" {
          actions := actions[pending.value := actions[pending.value].(reference := Some(m.effect))];
          actions := actions[pending.value := actions[pending.value].(status := Executed)];
        }
        events := events + [InboundEvent(state, m, "EFFECT_CONFIRMED", None, Echo, 0)];
        return;
      }
      if !m.permitted {
        events := events + [InboundEvent(state, m, m.kind, m.humanRequest, Unauthorized, delay)];
        return;
      }
      if ModeOf(cfg, m.provider) == Active {
        ReceiveMessage(m, delay);
      } else {
        events := events + [InboundEvent(state, m, m.kind, m.humanRequest, Queued, delay)];
      }
    }

    /** The message becomes an event; it answers the request it names, or the one its channel asked. */
    method ReceiveMessage(m: Incoming, delay: nat)
      requires m.task < |tasks|
      modifies this`events, this`humans
      ensures View() == Receive(old(View()), m, delay)
    {
      var state := State(tasks, events, runs, actions, humans, now, map[], [], []);
      SameAddressee(state, View(), m);
      var kind, about := m.kind, m.humanRequest;
      if about.None? {
        about := Addressed(state, m);
      }
      if about.Some? && LiveFor(humans, m.task, tasks[m.task], about.value) {
        var h := about.value;
        if humans[h].status == Open {
          humans := humans[h := humans[h].(status := Answered, answer := Some(Kept(m.body)))];
        }
        kind := "HUMAN_RESPONSE";
      }
      events := events + [InboundEvent(state, m, kind, about, Queued, delay)];
    }

    /** `human_response`; `key` is the printed key of request `h`. */
    method HumanResponse(t: nat, h: nat, key: string, answer: string, cfg: Settings, delay: nat)
      returns (verdict: Result<(), ResponseError>)
      requires t < |tasks|
      modifies this`events, this`actions, this`humans
      ensures ResponseVerdict(old(View()), t, h, cfg).Err? ==>
        verdict == ResponseVerdict(old(View()), t, h, cfg) && View() == old(View())
      ensures ResponseVerdict(old(View()), t, h, cfg).Ok? ==>
        && verdict == (if Blank(answer) || |answer| > MAX_BODY then Err(BadMessage) else Ok(()))
        && View() == Protocol.Enqueue(old(View()), Response(t, h, key, answer), cfg, delay)
    {
      var task := tasks[t];
      if !Coordinated(task) || task.status in {Paused, Merged, Failed, Cancelled} {
        return Err(TaskSuspended);
      }
      if h >= |humans| || humans[h].task != t {
        return Err(NotFound);
      }
      if humans[h].status != Open {
        return Err(Closed);
      }
      if !SameVersions(task, humans[h].lifecycle, humans[h].requirement) {
        return Err(TaskChanged);
      }
      if ModeOf(cfg, "dashboard") != Active {
        return Err(NotActive);
      }
      var active := Enqueue(Response(t, h, key, answer), cfg, delay);
      verdict := if active.Err? then Err(BadMessage) else Ok(());
    }

    /** `notify_engineering`; a key that is taken aborts the insertion. */
    method NotifyEngineering(t: nat, key: string, kind: string, cfg: Settings)
      modifies this`events
      ensures View() == Protocol.NotifyEngineering(old(View()), t, key, kind, cfg)
    {
      var previous := LastOutside(events, t);
      if previous.None? || ModeOf(cfg, events[previous.value].provider) == Off {
        return;
      }
      Notify(t, Notice(key, kind, events[previous.value].provider), 0);
    }

    /** `notify_observation`. */
    method NotifyObservation(t: nat, n: Notice, cfg: Settings, delay: nat)
      modifies this`events
      ensures View() == Protocol.NotifyObservation(old(View()), t, n, cfg, delay)
    {
      if ModeOf(cfg, n.channel) == Off {
        return;
      }
      Notify(t, n, delay);
    }

    method Notify(t: nat, n: Notice, delay: nat)
      modifies this`events
      ensures View() == Protocol.Notify(old(View()), t, n, delay)
    {
      if t >= |tasks| {
        return;
      }
      var i := 0;
      while i < |events|
        invariant 0 <= i <= |events| && events == old(events)
        invariant forall e :: 0 <= e < i ==> !(events[e].provider == "engineering" && events[e].key == n.key)
      {
        if events[i].provider == "engineering" && events[i].key == n.key {
          return;
        }
        i := i + 1;
      }
      events := events + [NoticeEvent(t, n, now).(available := now + delay)];
    }
  }

  // ----------------------------------------------------------------- supporting

  lemma {:induction false} LastIndexIs(n: nat, p: nat -> bool, r: Option<nat>)
    requires r.None? ==> forall i: nat :: i < n ==> !p(i)
    requires r.Some? ==> r.value < n && p(r.value) && forall i: nat :: r.value < i < n ==> !p(i)
    ensures LastIndex(n, p) == r
  {
    if n > 0 && !p(n - 1) {
      LastIndexIs(n - 1, p, r);
    }
  }

  lemma {:induction false} LastIndexSame(n: nat, p: nat -> bool, q: nat -> bool)
    requires forall i: nat :: i < n ==> p(i) == q(i)
    ensures LastIndex(n, p) == LastIndex(n, q)
  {
    if n > 0 {
      LastIndexSame(n - 1, p, q);
    }
  }

  lemma TriggerIs(s: State, admitted: seq<nat>, i: nat)
    requires i < |admitted| && forall j :: 0 <= j < |admitted| ==> admitted[j] < |s.events|
    requires s.events[admitted[i]].provider != "engineering"
    requires forall j :: i < j < |admitted| ==> s.events[admitted[j]].provider == "engineering"
    ensures Trigger(s, admitted) == admitted[i]
  {
    var p := (k: nat) => k < |admitted| && s.events[admitted[k]].provider != "engineering";
    LastIndexIs(|admitted|, p, Some(i));
    LastIndexSame(|admitted|, p, (i: nat) => i < |admitted| && s.events[admitted[i]].provider != "engineering");
  }

  lemma TriggerIsLast(s: State, admitted: seq<nat>)
    requires admitted != [] && forall j :: 0 <= j < |admitted| ==> admitted[j] < |s.events|
    requires forall j :: 0 <= j < |admitted| ==> s.events[admitted[j]].provider == "engineering"
    ensures Trigger(s, admitted) == admitted[|admitted| - 1]
  {
    var p := (k: nat) => k < |admitted| && s.events[admitted[k]].provider != "engineering";
    LastIndexIs(|admitted|, p, None);
    LastIndexSame(|admitted|, p, (i: nat) => i < |admitted| && s.events[admitted[i]].provider != "engineering");
  }

  /** The trigger depends only on the providers of the admitted events. */
  lemma TriggerKeeps(s: State, s': State, admitted: seq<nat>)
    requires admitted != [] && |s.events| == |s'.events|
    requires forall i :: 0 <= i < |admitted| ==> admitted[i] < |s.events|
    requires forall e :: 0 <= e < |s.events| ==> s'.events[e].provider == s.events[e].provider
    ensures Trigger(s, admitted) == Trigger(s', admitted)
  {
    LastIndexSame(|admitted|, (i: nat) => i < |admitted| && s.events[admitted[i]].provider != "engineering",
                  (i: nat) => i < |admitted| && s'.events[admitted[i]].provider != "engineering");
  }

  /** An event after its verdict, before the run takes it. */
  function TriagedRow(s: State, q: ClaimInput, e: nat): Event
    requires e < |s.events|
  {
    if e in q.batch && Judge(s, q, e) == Suspend then s.events[e].(status := Suspended)
    else if e in q.batch && Judge(s, q, e) == Refuse then s.events[e].(status := Unauthorized)
    else s.events[e]
  }

  /** The first `i` rows of the batch have their verdicts, all others are as they were. */
  ghost predicate TriagedSoFar(s: State, q: ClaimInput, events: seq<Event>, i: nat)
    requires i <= |q.batch|
  {
    |events| == |s.events| && forall e :: 0 <= e < |events| ==>
      events[e] == if e in q.batch[..i] then TriagedRow(s, q, e) else s.events[e]
  }

  /** One more row: its verdict is that of the untouched row. */
  lemma TriageStep(s: State, q: ClaimInput, events: seq<Event>, i: nat)
    requires Distinct(q.batch) && i < |q.batch| && forall j :: 0 <= j < |q.batch| ==> q.batch[j] < |s.events|
    requires TriagedSoFar(s, q, events, i)
    ensures Judge(s.(events := events), q, q.batch[i]) == Judge(s, q, q.batch[i])
    ensures TriagedSoFar(s, q, events[q.batch[i] := TriagedRow(s, q, q.batch[i])], i + 1)
    ensures TriagedRow(s, q, q.batch[i]) == match Judge(s, q, q.batch[i])
      case Suspend => events[q.batch[i]].(status := Suspended)
      case Refuse => events[q.batch[i]].(status := Unauthorized)
      case Admit => events[q.batch[i]]
    ensures Admitted(s, q, q.batch[..i + 1]) ==
      if Judge(s, q, q.batch[i]) == Admit then Admitted(s, q, q.batch[..i]) + [q.batch[i]] else Admitted(s, q, q.batch[..i])
  {
    assert q.batch[i] !in q.batch[..i];
    assert q.batch[..i + 1] == q.batch[..i] + [q.batch[i]];
    assert q.batch[..i + 1][..i] == q.batch[..i];
  }

  /** Admitted are exactly the rows of the batch with that verdict. */
  lemma AdmittedExactly(s: State, q: ClaimInput, e: nat)
    requires e < |s.events| && forall i :: 0 <= i < |q.batch| ==> q.batch[i] < |s.events|
    ensures e in Admitted(s, q, q.batch) <==> e in q.batch && Judge(s, q, e) == Admit
  {
    if e in q.batch {
      var i :| 0 <= i < |q.batch| && q.batch[i] == e;
      assert Judge(s, q, q.batch[i]) == Judge(s, q, e);
    }
  }

  /** Triage and joining give each row of the specification. */
  lemma JoinedRow(s: State, q: ClaimInput, r: nat, status: EventStatus, e: nat)
    requires e < |s.events| && forall i :: 0 <= i < |q.batch| ==> q.batch[i] < |s.events|
    ensures Triaged(s, q, r, status)[e] ==
      if e in Admitted(s, q, q.batch) then TriagedRow(s, q, e).(status := status, run := Some(r)) else TriagedRow(s, q, e)
  {
    AdmittedExactly(s, q, e);
    var verdict := Judge(s, q, e);
    assert TriagedRow(s, q, e).(status := status, run := Some(r)) == s.events[e].(status := status, run := Some(r));
  }

  lemma TriagedPointwise(s: State, q: ClaimInput, events: seq<Event>, r: nat, status: EventStatus)
    requires |events| == |s.events| && forall i :: 0 <= i < |q.batch| ==> q.batch[i] < |s.events|
    requires forall e :: 0 <= e < |events| ==> events[e] == TriagedRow(s, q, e)
    requires Admitted(s, q, q.batch) == []
    ensures events == Triaged(s, q, r, status)
  {
    forall e | 0 <= e < |events| ensures events[e] == Triaged(s, q, r, status)[e] {
      JoinedRow(s, q, r, status, e);
    }
  }

  lemma JoinedPointwise(s: State, q: ClaimInput, admitted: seq<nat>, triaged: seq<Event>, events: seq<Event>, r: nat, status: EventStatus)
    requires |events| == |triaged| == |s.events| && forall i :: 0 <= i < |q.batch| ==> q.batch[i] < |s.events|
    requires admitted == Admitted(s, q, q.batch)
    requires forall e :: 0 <= e < |triaged| ==> triaged[e] == TriagedRow(s, q, e)
    requires forall e :: 0 <= e < |events| ==>
      events[e] == if e in admitted then triaged[e].(status := status, run := Some(r)) else triaged[e]
    ensures events == Triaged(s, q, r, status)
  {
    forall e | 0 <= e < |events| ensures events[e] == Triaged(s, q, r, status)[e] {
      JoinedRow(s, q, r, status, e);
    }
  }

  /** The row after the first of the two recovery sweeps. */
  function Interrupted(s: State, locked: set<nat>, a: nat): Action
    requires a < |s.actions|
  {
    if StaleSending(s, locked, a)
    then s.actions[a].(status := Unknown, reconcile := !s.actions[a].kind.RequestReview?)
    else s.actions[a]
  }

  lemma SameEcho(s: State, s': State, m: Incoming)
    requires s'.actions == s.actions
    ensures FindEcho(s, m) == FindEcho(s', m)
  {
    LastIndexSame(|s.actions|, (a: nat) => EchoOf(s, m, a), (a: nat) => EchoOf(s', m, a));
  }

  lemma SameAddressee(s: State, s': State, m: Incoming)
    requires m.task < |s.tasks| && s'.tasks == s.tasks && s'.humans == s.humans && s'.actions == s.actions
    ensures Addressed(s, m) == Addressed(s', m)
  {
    LastIndexSame(|s.humans|, (h: nat) => Answerable(s, m, h), (h: nat) => Answerable(s', m, h));
  }
}
