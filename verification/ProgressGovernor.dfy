/**
 The progress governor of one Developer: counters and maps that events update, warnings that
 are reported once, and stop reasons. Timings and the phase label are not part of the model.
 */
module ProgressGovernor {
  import opened Prelude

  /** The digest of a worktree's differences. */
  type Digest = nat

  datatype Mode = Instrument | Warn | Enforce

  datatype Policy = Policy(
    mode: Mode, firstEditWarning: nat, explorationHard: nat, noProgress: nat, contextSoft: nat, contextHard: nat,
    maxTurnInput: nat, commandThreshold: nat, failureThreshold: nat, maxCompactions: nat)

  datatype Warning =
    | Exploration | NoProgress | RepeatedCommand | Context | RepeatedRead | UnchangedValidation
    | RepeatedCompaction | TurnInput

  datatype StopReason = ExplorationLimit | ToolLoop | ContextLimit | ReadLoop | CompactionLoop | TurnInputLimit

  /** What the turn has cost. */
  datatype Tokens = Tokens(
    total: nat, lastProgress: int, firstEdit: Option<nat>, peakContext: Option<nat>, cycles: nat, cached: nat)

  /** What was read and run; `repeats` and `readsByFile` count since the last change of the diff. */
  datatype Work = Work(
    fingerprint: Option<Digest>, diffChanges: nat, toolCalls: nat, repeats: map<string, nat>, readsByFile: map<string, nat>,
    readCount: nat, readBytes: nat, repeatedReads: nat)

  /** The last outcome of every check, and how often it failed in the same way. */
  datatype Checks = Checks(outcomes: map<string, string>, failed: map<string, nat>, improvements: nat, regressions: nat)

  datatype State = State(
    tokens: Tokens, work: Work, checks: Checks, warnings: set<Warning>, stop: Option<StopReason>, compactions: nat)

  const FRESH := State(Tokens(0, 0, None, None, 0, 0), Work(None, 0, 0, map[], map[], 0, 0, 0), Checks(map[], map[], 0, 0), {}, None, 0)

  datatype Event =
    | Read(fingerprint: string, size: nat)
    | Check(command: string, outcome: string)
    | Progress(diff: Digest)
    | Command(fingerprint: string, failed: bool, expensive: bool)
    | Compact
    | Observe(total: nat, context: Option<nat>, cached: Option<nat>)

  /** The part of a snapshot that `restore` reads. */
  datatype Snapshot = Snapshot(
    total: nat, firstEdit: Option<nat>, cached: nat, cycles: nat, sinceProgress: int, peakContext: Option<nat>,
    fingerprint: Option<Digest>, warnings: set<Warning>, compactions: nat)

  // ---------------------------------------------------------------- the transitions

  function Get(m: map<string, nat>, key: string, default: nat): nat {
    if key in m then m[key] else default
  }

  /** `max(m.values(), default=0) >= n`. */
  predicate AtLeast(m: map<string, nat>, n: int) {
    n <= 0 || exists k :: k in m && m[k] >= n
  }

  function OnRead(s: State, fp: string, size: nat): State {
    var before := Get(s.work.readsByFile, fp, 0);
    s.(work := s.work.(
      readCount := s.work.readCount + 1, readBytes := s.work.readBytes + size,
      readsByFile := s.work.readsByFile[fp := before + 1],
      repeatedReads := s.work.repeatedReads + (if before > 0 then 1 else 0)))
  }

  function OnCheck(s: State, command: string, outcome: string): State {
    var c := s.checks;
    var known := command in c.outcomes;
    var same := known && c.outcomes[command] == outcome;
    var wasPassed := known && c.outcomes[command] == "passed";
    s.(tokens := if known && !same then s.tokens.(lastProgress := s.tokens.total) else s.tokens,
       checks := Checks(
         c.outcomes[command := outcome],
         if same && outcome != "passed" then c.failed[command := Get(c.failed, command, 1) + 1]
         else if !same then c.failed - {command}
         else c.failed,
         c.improvements + (if known && !same && outcome == "passed" then 1 else 0),
         c.regressions + (if wasPassed && outcome != "passed" then 1 else 0)))
  }

  function Cleared(s: State): State {
    s.(work := s.work.(repeats := map[], readsByFile := map[]), checks := s.checks.(failed := map[]))
  }

  function OnProgress(s: State, fp: Digest): State {
    if s.work.fingerprint == Some(fp) then s
    else Cleared(s.(
      tokens := s.tokens.(firstEdit := if s.tokens.firstEdit.None? then Some(s.tokens.total) else s.tokens.firstEdit,
                          lastProgress := s.tokens.total),
      work := s.work.(fingerprint := Some(fp), diffChanges := s.work.diffChanges + 1)))
  }

  function OnCommand(s: State, fp: string, failed: bool, expensive: bool): State {
    s.(work := s.work.(
      toolCalls := s.work.toolCalls + 1,
      repeats := if failed && expensive then s.work.repeats[fp := Get(s.work.repeats, fp, 0) + 1] else s.work.repeats))
  }

  function Max(a: nat, b: nat): nat {
    if a >= b then a else b
  }

  /** The counters after an observation, before any judgement. */
  function Observed(s: State, total: nat, context: Option<nat>, cached: Option<nat>): State {
    var peak := if s.tokens.peakContext.Some? then s.tokens.peakContext.value else 0;
    s.(tokens := s.tokens.(
      total := Max(s.tokens.total, total), cycles := s.tokens.cycles + 1,
      cached := s.tokens.cached + (if cached.Some? then cached.value else 0),
      peakContext := if context.None? then s.tokens.peakContext else Some(Max(peak, context.value))))
  }

  function With(ws: set<Warning>, holds: bool, w: Warning): set<Warning> {
    if holds then ws + {w} else ws
  }

  /** Conditions on tokens, commands and context. */
  function SpendingConditions(p: Policy, s: State, context: Option<nat>): set<Warning> {
    var a := With({}, s.tokens.firstEdit.None? && s.tokens.total >= p.firstEditWarning, Exploration);
    var b := With(a, s.tokens.total - s.tokens.lastProgress >= p.noProgress, NoProgress);
    var c := With(b, AtLeast(s.work.repeats, p.commandThreshold - 1), RepeatedCommand);
    With(c, context.Some? && context.value >= p.contextSoft, Context)
  }

  /** The conditions that hold: those, and the ones on reads, checks, compactions and the turn. */
  function Conditions(p: Policy, s: State, context: Option<nat>): set<Warning> {
    var a := With(SpendingConditions(p, s, context), AtLeast(s.work.readsByFile, 3) && s.work.readBytes >= 40000, RepeatedRead);
    var b := With(a, AtLeast(s.checks.failed, p.failureThreshold), UnchangedValidation);
    var c := With(b, s.compactions > p.maxCompactions, RepeatedCompaction);
    With(c, s.tokens.total >= p.maxTurnInput, TurnInput)
  }

  /** The reason among tokens, commands and context. */
  function SpendingVerdict(p: Policy, s: State, context: Option<nat>): Option<StopReason> {
    if context.Some? && context.value >= p.contextSoft && context.value >= p.contextHard then Some(ContextLimit)
    else if AtLeast(s.work.repeats, p.commandThreshold - 1) && AtLeast(s.work.repeats, p.commandThreshold) then Some(ToolLoop)
    else if s.tokens.firstEdit.None? && s.tokens.total >= p.firstEditWarning && s.tokens.total >= p.explorationHard && s.work.toolCalls >= 4 && s.work.diffChanges == 0
    then Some(ExplorationLimit)
    else None
  }

  /** The reason to stop that wins: the last one found. */
  function Verdict(p: Policy, s: State, context: Option<nat>): Option<StopReason> {
    if s.tokens.total >= p.maxTurnInput then Some(TurnInputLimit)
    else if s.compactions > p.maxCompactions && s.tokens.total - s.tokens.lastProgress >= p.noProgress then Some(CompactionLoop)
    else if AtLeast(s.checks.failed, p.failureThreshold) then Some(ToolLoop)
    else if AtLeast(s.work.readsByFile, 3) && s.work.readBytes >= 40000 && s.work.diffChanges == 0 then Some(ReadLoop)
    else SpendingVerdict(p, s, context)
  }

  function OnObserve(p: Policy, s: State, total: nat, context: Option<nat>, cached: Option<nat>): State {
    var now := Observed(s, total, context, cached);
    var verdict := Verdict(p, now, context);
    now.(warnings := s.warnings + Conditions(p, now, context),
         stop := if p.mode == Enforce && verdict.Some? then verdict else s.stop)
  }

  /** The warnings that an observation reports. */
  function Reported(p: Policy, s: State, e: Event): set<Warning> {
    if !e.Observe? || p.mode == Instrument then {}
    else Conditions(p, Observed(s, e.total, e.context, e.cached), e.context) - s.warnings
  }

  function Step(p: Policy, s: State, e: Event): State {
    match e
    case Read(fp, size) => OnRead(s, fp, size)
    case Check(command, outcome) => OnCheck(s, command, outcome)
    case Progress(fp) => OnProgress(s, fp)
    case Command(fp, failed, expensive) => OnCommand(s, fp, failed, expensive)
    case Compact => s.(compactions := s.compactions + 1)
    case Observe(total, context, cached) => OnObserve(p, s, total, context, cached)
  }

  function Take(s: State): Snapshot {
    Snapshot(s.tokens.total, s.tokens.firstEdit, s.tokens.cached, s.tokens.cycles, s.tokens.total - s.tokens.lastProgress, s.tokens.peakContext, s.work.fingerprint, s.warnings, s.compactions)
  }

  function Restored(s: State, x: Snapshot): State {
    s.(tokens := Tokens(x.total, x.total - x.sinceProgress, x.firstEdit, x.peakContext, x.cycles, x.cached),
       work := s.work.(fingerprint := x.fingerprint), warnings := x.warnings, compactions := x.compactions)
  }

  function Run(p: Policy, s: State, events: seq<Event>): State {
    if events == [] then s else Step(p, Run(p, s, events[..|events| - 1]), events[|events| - 1])
  }

  // ------------------------------------------------------------------- the class

  class Governor {
    const policy: Policy
    var tokens: Tokens
    var work: Work
    var checks: Checks
    var warnings: set<Warning>
    var stopReason: Option<StopReason>
    var compactions: nat

    ghost function View(): State
      reads this
    {
      State(tokens, work, checks, warnings, stopReason, compactions)
    }

    constructor (policy: Policy)
      ensures this.policy == policy && View() == FRESH
    {
      this.policy := policy;
      tokens, work, checks := FRESH.tokens, FRESH.work, FRESH.checks;
      warnings, stopReason, compactions := {}, None, 0;
    }

    method Restore(x: Snapshot)
      modifies this
      ensures View() == Restored(old(View()), x)
    {
      tokens := Tokens(x.total, x.total - x.sinceProgress, x.firstEdit, x.peakContext, x.cycles, x.cached);
      work := work.(fingerprint := x.fingerprint);
      warnings, compactions := x.warnings, x.compactions;
    }

    method Read(fp: string, size: nat)
      modifies this`work
      ensures View() == OnRead(old(View()), fp, size)
    {
      work := work.(readCount := work.readCount + 1, readBytes := work.readBytes + size);
      work := work.(readsByFile := work.readsByFile[fp := Get(work.readsByFile, fp, 0) + 1]);
      if work.readsByFile[fp] > 1 {
        work := work.(repeatedReads := work.repeatedReads + 1);
      }
    }

    method Check(command: string, outcome: string)
      modifies this`checks, this`tokens
      ensures View() == OnCheck(old(View()), command, outcome)
    {
      var previous := if command in checks.outcomes then Some(checks.outcomes[command]) else None;
      if previous == Some(outcome) && outcome != "passed" {
        checks := checks.(failed := checks.failed[command := Get(checks.failed, command, 1) + 1]);
      } else if previous != Some(outcome) {
        checks := checks.(failed := checks.failed - {command});
      }
      if previous.Some? && previous != Some(outcome) {
        tokens := tokens.(lastProgress := tokens.total);
        if outcome == "passed" {
          checks := checks.(improvements := checks.improvements + 1);
        }
      }
      if previous == Some("passed") && outcome != "passed" {
        checks := checks.(regressions := checks.regressions + 1);
      }
      checks := checks.(outcomes := checks.outcomes[command := outcome]);
    }

    method Progress(fp: Digest)
      modifies this`tokens, this`work, this`checks
      ensures View() == OnProgress(old(View()), fp)
    {
      if work.fingerprint != Some(fp) {
        if tokens.firstEdit.None? {
          tokens := tokens.(firstEdit := Some(tokens.total));
        }
        work := work.(fingerprint := Some(fp), diffChanges := work.diffChanges + 1);
        tokens := tokens.(lastProgress := tokens.total);
        work := work.(repeats := map[], readsByFile := map[]);
        checks := checks.(failed := map[]);
      }
    }

    method Command(fp: string, failed: bool, expensive: bool)
      modifies this`work
      ensures View() == OnCommand(old(View()), fp, failed, expensive)
    {
      work := work.(toolCalls := work.toolCalls + 1);
      if failed && expensive {
        work := work.(repeats := work.repeats[fp := Get(work.repeats, fp, 0) + 1]);
      }
    }

    /** `max(m.values(), default=0)`. */
    /** The runner reports that the native context was compacted. */
    method Compact()
      modifies this`compactions
      ensures View() == Step(policy, old(View()), Event.Compact)
    {
      compactions := compactions + 1;
    }

    method MaxValue(m: map<string, nat>) returns (n: nat)
      ensures forall t: int :: AtLeast(m, t) <==> n >= t
    {
      n := 0;
      var left := m.Keys;
      while left != {}
        invariant left <= m.Keys
        invariant n == 0 || exists k :: k in m && m[k] == n
        invariant forall k :: k in m && k !in left ==> m[k] <= n
        decreases |left|
      {
        var k :| k in left;
        left := left - {k};
        if m[k] > n {
          n := m[k];
        }
      }
    }

    /** The counters of an observation. */
    method Count(total: nat, context: Option<nat>, cached: Option<nat>)
      modifies this`tokens
      ensures View() == Observed(old(View()), total, context, cached)
    {
      if total > tokens.total {
        tokens := tokens.(total := total);
      }
      tokens := tokens.(cycles := tokens.cycles + 1);
      if cached.Some? {
        tokens := tokens.(cached := tokens.cached + cached.value);
      }
      if context.Some? {
        var peak := if tokens.peakContext.Some? then tokens.peakContext.value else 0;
        tokens := tokens.(peakContext := Some(Max(peak, context.value)));
      }
    }

    method JudgeSpending(context: Option<nat>) returns (conditions: set<Warning>, stop: Option<StopReason>)
      ensures conditions == SpendingConditions(policy, View(), context) && stop == SpendingVerdict(policy, View(), context)
    {
      conditions, stop := {}, None;
      if tokens.firstEdit.None? && tokens.total >= policy.firstEditWarning {
        conditions := conditions + {Exploration};
        if tokens.total >= policy.explorationHard && work.toolCalls >= 4 && work.diffChanges == 0 {
          stop := Some(ExplorationLimit);
        }
      }
      if tokens.total - tokens.lastProgress >= policy.noProgress {
        conditions := conditions + {NoProgress};
      }
      var repeated := MaxValue(work.repeats);
      if repeated >= policy.commandThreshold - 1 {
        conditions := conditions + {RepeatedCommand};
        if repeated >= policy.commandThreshold {
          stop := Some(ToolLoop);
        }
      }
      if context.Some? && context.value >= policy.contextSoft {
        conditions := conditions + {Context};
        if context.value >= policy.contextHard {
          stop := Some(ContextLimit);
        }
      }
    }

    /** The conditions and the winning reason, checked one after the other. */
    method Judge(context: Option<nat>) returns (conditions: set<Warning>, stop: Option<StopReason>)
      ensures conditions == Conditions(policy, View(), context) && stop == Verdict(policy, View(), context)
    {
      conditions, stop := JudgeSpending(context);
      var repeatedly := MaxValue(work.readsByFile);
      if repeatedly >= 3 && work.readBytes >= 40000 {
        conditions := conditions + {RepeatedRead};
        if work.diffChanges == 0 {
          stop := Some(ReadLoop);
        }
      }
      var failures := MaxValue(checks.failed);
      if failures >= policy.failureThreshold {
        conditions := conditions + {UnchangedValidation};
        stop := Some(ToolLoop);
      }
      if compactions > policy.maxCompactions {
        conditions := conditions + {RepeatedCompaction};
        if tokens.total - tokens.lastProgress >= policy.noProgress {
          stop := Some(CompactionLoop);
        }
      }
      if tokens.total >= policy.maxTurnInput {
        conditions := conditions + {TurnInput};
        stop := Some(TurnInputLimit);
      }
    }

    method Observe(total: nat, context: Option<nat>, cached: Option<nat>) returns (warned: set<Warning>, reason: Option<StopReason>)
      modifies this
      ensures View() == OnObserve(policy, old(View()), total, context, cached)
      ensures warned == Reported(policy, old(View()), Event.Observe(total, context, cached)) && reason == stopReason
    {
      Count(total, context, cached);
      var conditions, stop := Judge(context);
      var unreported := conditions - warnings;
      warnings := warnings + conditions;
      if policy.mode == Enforce && stop.Some? {
        stopReason := stop;
      }
      return if policy.mode == Instrument then {} else unreported, stopReason;
    }

    method TakeSnapshot() returns (x: Snapshot)
      ensures x == Take(View())
    {
      x := Snapshot(tokens.total, tokens.firstEdit, tokens.cached, tokens.cycles, tokens.total - tokens.lastProgress,
                    tokens.peakContext, work.fingerprint, warnings, compactions);
    }
  }
}
