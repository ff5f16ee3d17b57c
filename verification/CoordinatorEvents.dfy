/**
 Where events end up: which return to the queue, which are stranded for ever, and when.
 */
module CoordinatorEvents {
  import opened Prelude
  import opened CoordinatorProtocol
  import opened CoordinatorInvariant
  import opened CoordinatorHistory

  /** Statuses that no transaction ever changes. */
  predicate Stranded(status: EventStatus) {
    status in {Suspended, Unauthorized, Echo}
  }

  // --------------------------------------------------------------- step by step

  /** Steps of the inbox and of deliveries change no event that is there. */
  lemma OthersLeaveEvents(s: State, step: Step, e: nat)
    requires e < |s.events| && !OnRuns(step)
    ensures e < |Next(s, step).events| && Next(s, step).events[e] == s.events[e]
  {
    if OnInbox(step) {
      InboxLeavesEvents(s, step, e);
    }
  }

  lemma InboxLeavesEvents(s: State, step: Step, e: nat)
    requires e < |s.events| && OnInbox(step)
    ensures e < |Next(s, step).events| && Next(s, step).events[e] == s.events[e]
  {
    match step
    case Receives(m, cfg, delay) =>
      if Enqueue(s, m, cfg, delay) != s {
        ArrivalsLeaveEvents(s, m, cfg, delay, e);
      }
    case _ =>
  }

  lemma ArrivalsLeaveEvents(s: State, m: Incoming, cfg: Settings, delay: nat, e: nat)
    requires e < |s.events| && m.task < |s.tasks|
    ensures e < |Arrive(s, m, cfg, delay).events| && Arrive(s, m, cfg, delay).events[e] == s.events[e]
  {
  }

  /** An outcome of the checks touches only events that its run holds, and those only to requeue them. */
  lemma ResolveLeaves(s: State, a: nat, outcome: Outcome, e: nat)
    requires e < |s.events| && a < |s.actions| && s.actions[a].run < |s.runs| && s.actions[a].task < |s.tasks|
    requires outcome.Commits? ==> s.actions[a].event < |s.events|
    ensures var s' := Resolve(s, a, outcome);
      && e < |s'.events|
      && (s'.events[e] != s.events[e] ==>
            s.events[e].run == Some(s.actions[a].run) && s'.runs[s.actions[a].run].status == RunSuperseded
            && s'.events[e].status == Queued)
  {
  }

  lemma ExecutionLeaves(s: State, a: nat, x: Surroundings, e: nat)
    requires Inv(s) && e < |s.events|
    ensures var s' := Execute(s, a, x);
      && e < |s'.events|
      && (s'.events[e] != s.events[e] ==>
            && a < |s.actions| && s.actions[a].run < |s.runs| && s.actions[a].run < |s'.runs|
            && s.events[e].run == Some(s.actions[a].run) && s'.runs[s.actions[a].run].status == RunSuperseded
            && s.runs[s.actions[a].run].status == RunReady && s'.events[e].status == Queued)
  {
    if Executable(s, a, x) {
      IntentFits(s, a);
      var action := s.actions[a];
      if SameVersions(s.tasks[action.task], s.runs[action.run].lifecycle, s.runs[action.run].requirement) {
        ResolveLeaves(s, a, Weigh(s, a, x), e);
      }
    }
  }

  /** This step supersedes the run that holds the event. */
  ghost predicate Releases(s: State, step: Step, e: nat)
    requires e < |s.events|
  {
    && s.events[e].run.Some? && s.events[e].run.value < |s.runs|
    && s.events[e].run.value < |Next(s, step).runs|
    && s.runs[s.events[e].run.value].status != RunSuperseded
    && Next(s, step).runs[s.events[e].run.value].status == RunSuperseded
  }

  /** An event that is not queued becomes queued exactly when the step supersedes the run that holds it. */
  lemma ReturnsExactly(s: State, step: Step, e: nat)
    requires Inv(s) && e < |s.events| && s.events[e].status != Queued
    ensures e < |Next(s, step).events|
    ensures Next(s, step).events[e].status == Queued <==> Releases(s, step, e)
  {
    assert EventFits(s.events[e], s.runs);
    if Releases(s, step, e) {
      SupersededBatchReturns(s, step, s.events[e].run.value, e);
    } else {
      OnlyReleaseQueues(s, step, e);
    }
  }

  lemma OnlyReleaseQueues(s: State, step: Step, e: nat)
    requires Inv(s) && e < |s.events| && s.events[e].status != Queued && !Releases(s, step, e)
    ensures e < |Next(s, step).events| && Next(s, step).events[e].status != Queued
  {
    assert EventFits(s.events[e], s.runs);
    if !OnRuns(step) {
      OthersLeaveEvents(s, step, e);
    } else {
      match step
      case Executes(a, x) => ExecutionLeaves(s, a, x, e);
      case Claims(q) => ClaimLeavesOthers(s, q, e);
      case _ =>
    }
  }

  /** A claim touches queued events only. */
  lemma ClaimLeavesOthers(s: State, q: ClaimInput, e: nat)
    requires Inv(s) && e < |s.events| && s.events[e].status != Queued
    ensures e < |Claim(s, q).events| && Claim(s, q).events[e] == s.events[e]
  {
    if q.pick.Some? && ValidPick(s, q.pick.value) {
      var t := s.events[q.pick.value].task;
      if ValidBatch(s, t, q.batch, q.locked) {
        forall i | 0 <= i < |q.batch| ensures q.batch[i] != e {
          assert Eligible(s, t, q.batch[i]);
        }
      }
    }
  }

  /** A stranded event is the same row after every step. */
  lemma StrandedStays(s: State, step: Step, e: nat)
    requires Inv(s) && e < |s.events| && Stranded(s.events[e].status)
    ensures e < |Next(s, step).events| && Next(s, step).events[e] == s.events[e]
  {
    assert EventFits(s.events[e], s.runs);
    if !OnRuns(step) {
      OthersLeaveEvents(s, step, e);
    } else {
      match step
      case Executes(a, x) => ExecutionLeaves(s, a, x, e);
      case Claims(q) => ClaimLeavesOthers(s, q, e);
      case _ =>
    }
  }

  // ------------------------------------------------------------ over whole runs

  /** A stranded event is the same row at every later moment of every run: nothing queues it again. */
  lemma {:induction false} StrandedForEver(states: seq<State>, steps: seq<Step>, i: nat, j: nat, e: nat)
    requires IsRun(states, steps) && i <= j < |states|
    requires e < |states[i].events| && Stranded(states[i].events[e].status)
    ensures e < |states[j].events| && states[j].events[e] == states[i].events[e]
    decreases j - i
  {
    if i < j {
      StrandedForEver(states, steps, i, j - 1, e);
      RunKeeps(states, steps, j - 1);
      StrandedStays(states[j - 1], steps[j - 1], e);
      assert Linked(states, steps, j - 1);
    }
  }

  /**
   This step strands the queued event: a claim picked it while its Team or task was suspended,
   or had it in its batch while its channel was switched off or its actor no longer permitted.
   */
  ghost predicate Strands(s: State, step: Step, e: nat)
    requires e < |s.events|
  {
    && step.Claims? && step.input.pick.Some? && ValidPick(s, step.input.pick.value) && step.input.taskFree
    && var q, t := step.input, s.events[step.input.pick.value].task;
    && t < |s.tasks| && !HasActiveRun(s, t)
    && (if !Coordinated(s.tasks[t]) then e == q.pick.value
        else ValidBatch(s, t, q.batch, q.locked) && e in q.batch && Judge(s, q, e) != Admit)
  }

  /** Triage strands exactly the rows that are not admitted. */
  lemma TriageStrandsExactly(s: State, q: ClaimInput, r: nat, status: EventStatus, e: nat)
    requires e < |s.events| && s.events[e].status == Queued && status in {Claimed, EventFailed}
    ensures Stranded(Triaged(s, q, r, status)[e].status) <==> e in q.batch && Judge(s, q, e) != Admit
  {
  }

  lemma ClaimStrandsExactly(s: State, q: ClaimInput, e: nat)
    requires Inv(s) && e < |s.events| && s.events[e].status == Queued
    ensures e < |Claim(s, q).events|
    ensures Stranded(Claim(s, q).events[e].status) <==> Strands(s, Claims(q), e)
  {
    if q.pick.Some? && ValidPick(s, q.pick.value) && q.taskFree {
      var t := s.events[q.pick.value].task;
      if t < |s.tasks| && !HasActiveRun(s, t) && Coordinated(s.tasks[t]) && ValidBatch(s, t, q.batch, q.locked) {
        BatchStrandsExactly(s, q, t, e);
      }
    }
  }

  lemma BatchStrandsExactly(s: State, q: ClaimInput, t: nat, e: nat)
    requires Inv(s) && e < |s.events| && s.events[e].status == Queued
    requires q.pick.Some? && ValidPick(s, q.pick.value) && q.taskFree && t == s.events[q.pick.value].task && t < |s.tasks|
    requires !HasActiveRun(s, t) && Coordinated(s.tasks[t]) && ValidBatch(s, t, q.batch, q.locked)
    ensures e < |Claim(s, q).events|
    ensures Stranded(Claim(s, q).events[e].status) <==> e in q.batch && Judge(s, q, e) != Admit
  {
    var status := if Admitted(s, q, q.batch) == [] || q.requirementKnown then Claimed else EventFailed;
    TriageStrandsExactly(s, q, |s.runs|, status, e);
    assert Claim(s, q).events == Triaged(s, q, |s.runs|, status);
  }

  /** An event that is not stranded yet is stranded by a step exactly if the step is such a claim and the event is queued. */
  lemma StrandedExactlyBy(s: State, step: Step, e: nat)
    requires Inv(s) && e < |s.events| && !Stranded(s.events[e].status)
    ensures e < |Next(s, step).events|
    ensures Stranded(Next(s, step).events[e].status) <==> s.events[e].status == Queued && Strands(s, step, e)
  {
    assert EventFits(s.events[e], s.runs);
    if !OnRuns(step) {
      OthersLeaveEvents(s, step, e);
    } else {
      match step
      case Executes(a, x) => ExecutionLeaves(s, a, x, e);
      case Claims(q) =>
        if s.events[e].status == Queued {
          ClaimStrandsExactly(s, q, e);
        } else {
          ClaimLeavesOthers(s, q, e);
        }
      case _ =>
    }
  }

  ghost predicate StrandedAt(states: seq<State>, steps: seq<Step>, m: int, e: nat) {
    && 0 <= m < |steps| && m < |states| && e < |states[m].events|
    && states[m].events[e].status == Queued && Strands(states[m], steps[m], e)
  }

  ghost predicate StrandedBy(states: seq<State>, i: nat, e: nat) {
    i < |states| && e < |states[i].events| && Stranded(states[i].events[e].status)
  }

  lemma OneMoreStep(states: seq<State>, steps: seq<Step>, m: nat, e: nat)
    requires IsRun(states, steps) && m < |steps| && e < |states[m].events|
    ensures e < |states[m + 1].events|
    ensures StrandedBy(states, m + 1, e) <==> StrandedBy(states, m, e) || StrandedAt(states, steps, m, e)
  {
    RunKeeps(states, steps, m);
    assert Linked(states, steps, m);
    if Stranded(states[m].events[e].status) {
      StrandedStays(states[m], steps[m], e);
    } else {
      StrandedExactlyBy(states[m], steps[m], e);
    }
  }

  /**
   Over any run, an event that was not stranded is stranded later if and only if, in between,
   a claim reached it while it was queued and its Team, task, channel or actor was not active.
   */
  lemma {:induction false} StrandedExactly(states: seq<State>, steps: seq<Step>, i: nat, j: nat, e: nat)
    requires IsRun(states, steps) && i <= j < |states| && e < |states[i].events| && !StrandedBy(states, i, e)
    ensures e < |states[j].events|
    ensures StrandedBy(states, j, e) <==> exists m :: i <= m < j && StrandedAt(states, steps, m, e)
    decreases j - i
  {
    if i < j {
      StrandedExactly(states, steps, i, j - 1, e);
      OneMoreStep(states, steps, j - 1, e);
      if StrandedAt(states, steps, j - 1, e) {
      } else if exists m :: i <= m < j && StrandedAt(states, steps, m, e) {
        var m :| i <= m < j && StrandedAt(states, steps, m, e);
        assert m < j - 1;
      }
    }
  }
}
