/**
 Turns of the coordinator's model and answers of its humans: how an inference ends whatever
 happened to its run meanwhile, and how an answer lets a waiting task continue.
 */
module CoordinatorTurns {
  import opened Prelude
  import opened CoordinatorProtocol
  import opened CoordinatorInvariant
  import opened CoordinatorHistory

  // ------------------------------------------------------------ ends of a turn

  /** The status that a turn leaves its run in, if the run was still claimed. */
  function EndOf(s: State, r: nat, t: nat, ending: Ending): RunStatus
    requires r < |s.runs| && s.runs[r].task < |s.tasks|
  {
    var run, task := s.runs[r], s.tasks[s.runs[r].task];
    var current := SameVersions(task, run.lifecycle, run.requirement);
    match ending
    case Broken => RunFailed
    case Advanced => RunSuperseded
    case Decides(_) =>
      if !Coordinated(task) then RunFailed
      else if !current then RunSuperseded
      else if run.task != t then RunFailed
      else if run.mode == Shadow then RunShadow else RunReady
  }

  /**
   A turn always ends its run, exactly once: a run that a sweep or another end came to first
   is left as it is, and otherwise run and batch move together.
   */
  lemma TurnEnds(s: State, r: nat, t: nat, ending: Ending)
    requires Inv(s) && r < |s.runs|
    ensures s.runs[r].status != RunClaimed ==> Settle(s, r, t, ending) == s
    ensures s.runs[r].status == RunClaimed ==>
      var s' := Settle(s, r, t, ending);
      && |s'.runs| == |s.runs| && s'.runs[r].status == EndOf(s, r, t, ending) && s'.runs[r].status != RunClaimed
      && |s'.events| == |s.events|
      && (forall e :: 0 <= e < |s.events| ==>
            if s.events[e].run != Some(r) then s'.events[e] == s.events[e]
            else if s'.runs[r].status == RunSuperseded
            then s'.events[e] == s.events[e].(status := Queued, run := None, available := s.now)
            else s'.events[e] == s.events[e].(status := StatusUnder(s'.runs[r].status).value))
      && (if s'.runs[r].status == RunReady then |s'.actions| == |s.actions| + 1 && s'.actions[..|s.actions|] == s.actions
          else s'.actions == s.actions)
  {
    assert s.runs[r].task < |s.tasks|;
  }

  /** A turn of run `r` may end by this step: its own failure, or a completion that does not raise. */
  predicate EndsTurn(s: State, step: Step, r: nat) {
    if step.Fails? then step.run == r
    else step.Completes? && step.run == r && r < |s.runs|
         && (s.runs[r].status == RunClaimed ==>
               step.task == s.runs[r].task && step.task < |s.tasks|
               && SameVersions(s.tasks[step.task], s.runs[r].lifecycle, s.runs[r].requirement))
  }

  /** No step claims a run again. */
  lemma NeverReclaimed(s: State, step: Step, r: nat)
    requires Inv(s) && r < |s.runs| && s.runs[r].status != RunClaimed
    ensures r < |Next(s, step).runs| && Next(s, step).runs[r].status != RunClaimed
  {
    if !OnRuns(step) {
      RunsStay(s, step);
    } else if step.Executes? {
      ExecutionNeverClaims(s, step.action, step.around, r);
    }
  }

  lemma ExecutionNeverClaims(s: State, a: nat, x: Surroundings, r: nat)
    requires Inv(s) && r < |s.runs| && s.runs[r].status != RunClaimed
    ensures r < |Execute(s, a, x).runs| && Execute(s, a, x).runs[r].status != RunClaimed
  {
    if a < |s.actions| && s.actions[a].status in {Pending, WaitingEngineer} {
      IntentFits(s, a);
    }
  }

  /** Once a turn has ended, its run is never claimed again, whatever else happens. */
  lemma {:induction false} EndedForEver(states: seq<State>, steps: seq<Step>, k: nat, j: nat, r: nat)
    requires IsRun(states, steps) && k < j < |states| && r < |states[k].runs|
    requires EndsTurn(states[k], steps[k], r)
    ensures r < |states[j].runs| && states[j].runs[r].status != RunClaimed
    decreases j
  {
    RunKeeps(states, steps, j - 1);
    assert Linked(states, steps, j - 1);
    if k + 1 < j {
      EndedForEver(states, steps, k, j - 1, r);
      NeverReclaimed(states[j - 1], steps[j - 1], r);
    }
  }

  /**
   Of two ends of one turn, such as a sweep's and a late completion, or a completion and the
   failure of the cancelled worker, the second changes nothing.
   */
  lemma SecondEndIsHarmless(states: seq<State>, steps: seq<Step>, k: nat, l: nat, r: nat)
    requires IsRun(states, steps) && k < l < |steps| && r < |states[k].runs|
    requires EndsTurn(states[k], steps[k], r)
    requires (steps[l].Fails? && steps[l].run == r) || (steps[l].Completes? && steps[l].run == r)
    ensures states[l + 1] == states[l]
  {
    EndedForEver(states, steps, k, l, r);
    assert Linked(states, steps, l);
  }

  lemma StaysUnclaimed(states: seq<State>, steps: seq<Step>, m: nat, r: nat)
    requires IsRun(states, steps) && m < |steps| && r < |states[m].runs| && states[m].runs[r].status != RunClaimed
    ensures r < |states[m + 1].runs| && states[m + 1].runs[r].status != RunClaimed
  {
    RunKeeps(states, steps, m);
    NeverReclaimed(states[m], steps[m], r);
    assert Linked(states, steps, m);
  }

  /** A run that is not claimed now is not claimed at any later moment either. */
  lemma {:induction false} NeverClaimedAgain(states: seq<State>, steps: seq<Step>, i: nat, j: nat, r: nat)
    requires IsRun(states, steps) && i <= j < |states| && r < |states[i].runs| && states[i].runs[r].status != RunClaimed
    ensures r < |states[j].runs| && states[j].runs[r].status != RunClaimed
    decreases j - i
  {
    if i < j {
      NeverClaimedAgain(states, steps, i, j - 1, r);
      StaysUnclaimed(states, steps, j - 1, r);
    }
  }

  /** The situation that run `r` was claimed in is gone. */
  predicate Lost(s: State, r: nat) {
    r < |s.runs| && (s.runs[r].status != RunClaimed
      || (s.runs[r].task < |s.tasks| && !SameVersions(s.tasks[s.runs[r].task], s.runs[r].lifecycle, s.runs[r].requirement)))
  }

  /** A situation that is gone stays gone. */
  lemma LostForEver(states: seq<State>, steps: seq<Step>, i: nat, j: nat, r: nat)
    requires IsRun(states, steps) && i <= j < |states| && Lost(states[i], r)
    ensures Lost(states[j], r)
  {
    RunEvolves(states, steps, i, j);
    assert SameRun(states[i].runs[r], states[j].runs[r]);
    if states[i].runs[r].status != RunClaimed {
      NeverClaimedAgain(states, steps, i, j, r);
    } else if !Lost(states[j], r) {
      var run := states[i].runs[r];
      RunKeeps(states, steps, j);
      var k := BirthOf(states, steps, i, r);
      BirthAt(states, steps, k, r);
      RunEvolves(states, steps, k + 1, i);
      assert SameRun(states[k + 1].runs[r], run);
      RunEvolves(states, steps, k, j);
      FrozenBetween(states, steps, k, j, run.task, run.lifecycle, run.requirement);
    }
  }

  /**
   What `ensure_authorized` tells a watcher. Once it reports that the task advanced, no decision
   of this run can be written at any later moment, so stopping the inference loses nothing.
   Otherwise the decision is written at any moment at which the situation is still there.
   */
  lemma StoppedInferenceLosesNothing(states: seq<State>, steps: seq<Step>, i: nat, j: nat, r: nat, d: Decision)
    requires IsRun(states, steps) && i <= j < |states| && r < |states[i].runs|
    ensures r < |states[j].runs|
    ensures Lost(states[i], r) ==> Complete(states[j], r, states[j].runs[r].task, d) == states[j]
    ensures Complete(states[j], r, states[j].runs[r].task, d) != states[j] <==> !Lost(states[j], r)
  {
    RunEvolves(states, steps, i, j);
    RunKeeps(states, steps, j);
    if Lost(states[i], r) {
      LostForEver(states, steps, i, j, r);
    }
    if !Lost(states[j], r) {
      assert Complete(states[j], r, states[j].runs[r].task, d).runs[r].status != RunClaimed;
    }
  }

  // --------------------------------------------------------------- engineering

  /** What it takes to start engineering work. */
  predicate EngineeringFree(s: State, r: nat, x: Surroundings) {
    x.scope && !x.busy && x.settled && !(exists e :: 0 <= e < |s.events| && FromRun(s, r, e) && s.events[e].truncated)
  }

  /**
   In a run of the system engineering work is started only within its scope, while no other run
   of the task works or has an unknown cost, and from feedback that was read completely.
   */
  lemma EngineeringStartsAlone(states: seq<State>, steps: seq<Step>, i: nat)
    requires IsRun(states, steps) && i < |steps| && states[i + 1].effects != states[i].effects
    ensures steps[i].Executes? && steps[i].action < |states[i].actions|
    ensures var a := states[i].actions[steps[i].action];
            a.decision.action.Implement? || a.decision.action.Repair? ==> EngineeringFree(states[i], a.run, steps[i].around)
  {
    CommitAt(states, steps, i);
    assert Linked(states, steps, i);
    CommitIsFree(states[i], steps[i].action, steps[i].around);
  }

  lemma CommitIsFree(s: State, a: nat, x: Surroundings)
    requires a < |s.actions| && Execute(s, a, x).effects != s.effects
    ensures s.actions[a].decision.action.Implement? || s.actions[a].decision.action.Repair? ==>
      EngineeringFree(s, s.actions[a].run, x)
  {
    assert Weigh(s, a, x).Commits?;
  }

  /**
   Engineering work that is only held up by a busy engineer waits, with nothing else changed, and
   is weighed again exactly when the engineer is free or a newer message has come.
   */
  lemma EngineeringWaits(s: State, a: nat, x: Surroundings, later: Surroundings)
    requires Inv(s) && a < |s.actions| && s.actions[a].status == Pending
    requires s.actions[a].decision.action.Implement? || s.actions[a].decision.action.Repair?
    requires EngineeringVerdict(s, a, x) == Some(EngineerBusy) && Weigh(s, a, x) == EngineerBusy
    requires SameVersions(s.tasks[s.actions[a].task], s.runs[s.actions[a].run].lifecycle, s.runs[s.actions[a].run].requirement)
    ensures x.busy && x.scope
    ensures var s' := Execute(s, a, x);
      && s' == s.(actions := s.actions[a := s.actions[a].(status := WaitingEngineer)])
      && (Executable(s', a, later) <==> !later.busy || NewerQueued(s, s.actions[a].task, s.actions[a].created))
  {
    assert ActionFits(s.actions[a], s.runs) && ActionLinked(s.actions[a], s.runs);
  }

  // ------------------------------------------------------------------- answers

  /** Whether an admitted response is acted on. */
  predicate Heard(s: State, key: string, answer: string) {
    && !Blank(answer) && |answer| <= MAX_BODY
    && !(exists e :: 0 <= e < |s.events| && s.events[e].provider == "dashboard" && s.events[e].key == key)
  }

  /**
   A response that passes the guards answers its request and queues one event that names it,
   exactly when its text is in bounds and its key is new; otherwise nothing changes.
   */
  lemma ResponseAnswersExactly(s: State, t: nat, h: nat, key: string, answer: string, cfg: Settings, delay: nat)
    requires t < |s.tasks| && ResponseVerdict(s, t, h, cfg).Ok?
    ensures var s' := Enqueue(s, Response(t, h, key, answer), cfg, delay);
      && (s'.humans[h].status == Answered <==> Heard(s, key, answer))
      && (!Heard(s, key, answer) ==> s' == s)
      && (Heard(s, key, answer) ==>
            && s' == s.(humans := s'.humans, events := s'.events)
            && s'.humans == s.humans[h := s.humans[h].(status := Answered, answer := Some(Kept(answer)))]
            && |s'.events| == |s.events| + 1 && s'.events[..|s.events|] == s.events
            && s'.events[|s.events|].kind == "HUMAN_RESPONSE" && s'.events[|s.events|].humanRequest == Some(h)
            && s'.events[|s.events|].status == Queued && s'.events[|s.events|].task == t)
  {
    var m := Response(t, h, key, answer);
    assert SeenKey(s, m) <==> exists e :: 0 <= e < |s.events| && s.events[e].provider == "dashboard" && s.events[e].key == key;
    assert FindEcho(s, m) == None;
    assert LiveFor(s.humans, t, s.tasks[t], h);
  }

  /** As long as a request is live, every run whose batch holds its answer may let the waiting task continue. */
  lemma AnswerLetsTaskContinue(states: seq<State>, steps: seq<Step>, i: nat, j: nat, e: nat, h: nat, r: nat, t: nat)
    requires IsRun(states, steps) && i <= j < |states|
    requires e < |states[i].events| && states[i].events[e].kind == "HUMAN_RESPONSE" && states[i].events[e].humanRequest == Some(h)
    requires h < |states[i].humans| && states[i].humans[h].status == Answered
    requires t < |states[j].tasks| && LiveFor(states[j].humans, t, states[j].tasks[t], h)
    requires FromRun(states[j], r, e)
    ensures Continuation(states[j], r, t)
  {
    RunEvolves(states, steps, i, j);
    assert HumanEvolves(states[i].humans[h], states[j].humans[h]);
    assert SameEvent(states[i].events[e], states[j].events[e]);
    var latest := LatestHuman(states[j].humans, t, states[j].tasks[t]);
    assert latest.Some?;
    OneLiveQuestion(states, steps, j, t, h, latest.value);
  }

  /**
   A task that waits for its human is advanced only by an answer: whatever effect other than
   silence or a reply commits, the run's own batch holds an answer to the one live request.
   */
  lemma WaitingNeedsAnswer(states: seq<State>, steps: seq<Step>, i: nat) returns (e: nat, h: nat)
    requires IsRun(states, steps) && i < |steps| && states[i + 1].effects != states[i].effects
    requires steps[i].Executes? && steps[i].action < |states[i].actions|
    requires states[i].actions[steps[i].action].task < |states[i].tasks|
    requires states[i].tasks[states[i].actions[steps[i].action].task].status == WaitingHuman
    requires !Passive(states[i].actions[steps[i].action].decision.action)
    ensures var a := states[i].actions[steps[i].action];
      && FromRun(states[i], a.run, e) && states[i].events[e].kind == "HUMAN_RESPONSE"
      && states[i].events[e].humanRequest == Some(h)
      && LiveFor(states[i].humans, a.task, states[i].tasks[a.task], h)
      && states[i].humans[h].status == Answered
  {
    assert Linked(states, steps, i);
    var s, a := states[i], states[i].actions[steps[i].action];
    CommitContinues(s, steps[i].action, steps[i].around);
    h := LatestHuman(s.humans, a.task, s.tasks[a.task]).value;
    e :| 0 <= e < |s.events| && FromRun(s, a.run, e) && s.events[e].kind == "HUMAN_RESPONSE" && s.events[e].humanRequest == Some(h);
  }

  lemma CommitContinues(s: State, a: nat, x: Surroundings)
    requires a < |s.actions| && s.actions[a].task < |s.tasks| && Execute(s, a, x).effects != s.effects
    requires s.tasks[s.actions[a].task].status == WaitingHuman && !Passive(s.actions[a].decision.action)
    ensures Continuation(s, s.actions[a].run, s.actions[a].task)
  {
    assert Weigh(s, a, x).Commits?;
  }
}
