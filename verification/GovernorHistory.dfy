/**
 The governor against the history of its events.
 */
module GovernorHistory {
  import opened Prelude
  import opened ProgressGovernor

  // ----------------------------------------------------------------------- totals

  predicate ObservesTotal(e: Event, n: nat) {
    e.Observe? && e.total == n
  }

  /** The total is the running maximum of what was observed. */
  lemma {:induction false} TotalIsMaximum(p: Policy, s: State, es: seq<Event>)
    ensures var t := Run(p, s, es).tokens.total;
      && t >= s.tokens.total
      && (forall i :: 0 <= i < |es| && es[i].Observe? ==> t >= es[i].total)
      && (t == s.tokens.total || exists i :: 0 <= i < |es| && ObservesTotal(es[i], t))
  {
    if es != [] {
      var n := |es| - 1;
      TotalIsMaximum(p, s, es[..n]);
      var before, t := Run(p, s, es[..n]).tokens.total, Run(p, s, es).tokens.total;
      if t != before {
        assert ObservesTotal(es[n], t);
      } else if t != s.tokens.total {
        var i :| 0 <= i < n && ObservesTotal(es[..n][i], t);
        assert ObservesTotal(es[i], t);
      }
    }
  }

  /** Progress is never later than the total. */
  lemma {:induction false} ProgressIsPast(p: Policy, s: State, es: seq<Event>)
    requires s.tokens.lastProgress <= s.tokens.total
    ensures Run(p, s, es).tokens.lastProgress <= Run(p, s, es).tokens.total
    ensures Run(p, s, es).tokens.lastProgress >= s.tokens.lastProgress
  {
    if es != [] {
      ProgressIsPast(p, s, es[..|es| - 1]);
    }
  }

  // ------------------------------------------------------------------------ epochs

  /** The fingerprint of the last progress event, if any. */
  function LastDiff(start: Option<Digest>, es: seq<Event>): Option<Digest> {
    if es == [] then start
    else if es[|es| - 1].Progress? then Some(es[|es| - 1].diff)
    else LastDiff(start, es[..|es| - 1])
  }

  /** Event `k` changes the diff. */
  predicate Changes(start: Option<Digest>, es: seq<Event>, k: nat)
    requires k < |es|
  {
    es[k].Progress? && LastDiff(start, es[..k]) != Some(es[k].diff)
  }

  /** No change of the diff from event `j` on. */
  ghost predicate SameEpoch(start: Option<Digest>, es: seq<Event>, j: nat) {
    forall k :: j <= k < |es| ==> !Changes(start, es, k)
  }

  predicate Reads(e: Event, fp: string) {
    e.Read? && e.fingerprint == fp
  }

  /** Event `i` reads a file for the first time in its epoch. */
  ghost predicate IsFirstRead(start: Option<Digest>, es: seq<Event>, i: nat) {
    && i < |es| && es[i].Read?
    && forall j :: 0 <= j < i && Reads(es[j], es[i].fingerprint) ==> !SameEpoch(start, es[..i], j)
  }

  ghost function FirstReads(start: Option<Digest>, es: seq<Event>): nat {
    if es == [] then 0 else FirstReads(start, es[..|es| - 1]) + (if IsFirstRead(start, es, |es| - 1) then 1 else 0)
  }

  lemma {:induction false} FingerprintIs(p: Policy, s: State, es: seq<Event>)
    ensures Run(p, s, es).work.fingerprint == LastDiff(s.work.fingerprint, es)
  {
    if es != [] {
      FingerprintIs(p, s, es[..|es| - 1]);
    }
  }

  /** An epoch seen from one event later. */
  lemma EpochExtends(start: Option<Digest>, es: seq<Event>, j: nat)
    requires es != [] && j < |es|
    ensures SameEpoch(start, es, j) <==> SameEpoch(start, es[..|es| - 1], j) && !Changes(start, es, |es| - 1)
  {
    var n := |es| - 1;
    var front := es[..n];
    forall k | 0 <= k < n ensures Changes(start, front, k) <==> Changes(start, es, k) {
      assert front[..k] == es[..k];
    }
  }

  /** A file is in the map of reads exactly if it was read in the current epoch. */
  ghost predicate ReadInEpoch(start: Option<Digest>, es: seq<Event>, fp: string) {
    exists j :: 0 <= j < |es| && Reads(es[j], fp) && SameEpoch(start, es, j)
  }

  lemma ReadInEpochStep(start: Option<Digest>, es: seq<Event>, fp: string)
    requires es != []
    ensures var n := |es| - 1;
      ReadInEpoch(start, es, fp) <==> Reads(es[n], fp) || (ReadInEpoch(start, es[..n], fp) && !Changes(start, es, n))
  {
    var n := |es| - 1;
    var front := es[..n];
    if Reads(es[n], fp) {
      assert SameEpoch(start, es, n);
    }
    if ReadInEpoch(start, front, fp) && !Changes(start, es, n) {
      var j :| 0 <= j < n && Reads(front[j], fp) && SameEpoch(start, front, j);
      EpochExtends(start, es, j);
      assert Reads(es[j], fp);
    }
    if ReadInEpoch(start, es, fp) && !Reads(es[n], fp) {
      var j :| 0 <= j < |es| && Reads(es[j], fp) && SameEpoch(start, es, j);
      EpochExtends(start, es, j);
      assert Reads(front[j], fp);
    }
  }

  lemma {:induction false} ReadsAreOfEpoch(p: Policy, s: State, es: seq<Event>, fp: string)
    requires s.work.readsByFile == map[]
    ensures Get(Run(p, s, es).work.readsByFile, fp, 0) > 0 <==> ReadInEpoch(s.work.fingerprint, es, fp)
  {
    if es != [] {
      var front := es[..|es| - 1];
      ReadsAreOfEpoch(p, s, front, fp);
      FingerprintIs(p, s, front);
      ReadInEpochStep(s.work.fingerprint, es, fp);
    }
  }

  lemma FirstReadIs(start: Option<Digest>, es: seq<Event>)
    requires es != [] && es[|es| - 1].Read?
    ensures IsFirstRead(start, es, |es| - 1) <==> !ReadInEpoch(start, es[..|es| - 1], es[|es| - 1].fingerprint)
  {
    var front := es[..|es| - 1];
    assert forall j :: 0 <= j < |front| ==> front[j] == es[j];
  }

  /** Reads minus repeated reads are the first reads of every epoch between changes of the diff. */
  lemma {:induction false} FirstReadsAreCounted(p: Policy, s: State, es: seq<Event>)
    requires s.work.readsByFile == map[]
    ensures var w := Run(p, s, es).work;
      w.readCount - w.repeatedReads == s.work.readCount - s.work.repeatedReads + FirstReads(s.work.fingerprint, es)
  {
    if es != [] {
      var front := es[..|es| - 1];
      FirstReadsAreCounted(p, s, front);
      if es[|es| - 1].Read? {
        ReadsAreOfEpoch(p, s, front, es[|es| - 1].fingerprint);
        FirstReadIs(s.work.fingerprint, es);
      }
    }
  }

  /** The diff counter counts the changes. */
  ghost function ChangeCount(start: Option<Digest>, es: seq<Event>): nat {
    if es == [] then 0
    else ChangeCount(start, es[..|es| - 1]) + (if Changes(start, es, |es| - 1) then 1 else 0)
  }

  lemma {:induction false} ChangesAreCounted(p: Policy, s: State, es: seq<Event>)
    ensures Run(p, s, es).work.diffChanges == s.work.diffChanges + ChangeCount(s.work.fingerprint, es)
  {
    if es != [] {
      ChangesAreCounted(p, s, es[..|es| - 1]);
      FingerprintIs(p, s, es[..|es| - 1]);
    }
  }

  function CompactCount(es: seq<Event>): nat {
    if es == [] then 0 else CompactCount(es[..|es| - 1]) + (if es[|es| - 1].Compact? then 1 else 0)
  }

  /** The compaction counter counts exactly the compactions, whatever the diff did in between. */
  lemma {:induction false} CompactionsAreCounted(p: Policy, s: State, es: seq<Event>)
    ensures Run(p, s, es).compactions == s.compactions + CompactCount(es)
  {
    if es != [] {
      CompactionsAreCounted(p, s, es[..|es| - 1]);
    }
  }

  /**
   After more compactions than the policy allows, an enforcing observation always stops if too
   many tokens passed since the last progress.
   */
  lemma CompactionLoopStops(p: Policy, s: State, es: seq<Event>, e: Event)
    requires p.mode == Enforce && e.Observe? && s.compactions + CompactCount(es) > p.maxCompactions
    requires Max(Run(p, s, es).tokens.total, e.total) - Run(p, s, es).tokens.lastProgress >= p.noProgress
    ensures Step(p, Run(p, s, es), e).stop in {Some(CompactionLoop), Some(TurnInputLimit)}
    ensures RepeatedCompaction in Step(p, Run(p, s, es), e).warnings
  {
    CompactionsAreCounted(p, s, es);
  }

  // -------------------------------------------------------------- warnings and stops

  /** How often a warning is reported while events follow. */
  function Reports(p: Policy, s: State, es: seq<Event>, w: Warning): nat {
    if es == [] then 0
    else Reports(p, s, es[..|es| - 1], w) + (if w in Reported(p, Run(p, s, es[..|es| - 1]), es[|es| - 1]) then 1 else 0)
  }

  /** A warning is reported at most once, and never if it is already known; afterwards it is known. */
  lemma {:induction false} WarningsAreReportedOnce(p: Policy, s: State, es: seq<Event>, w: Warning)
    ensures Reports(p, s, es, w) <= (if w in s.warnings then 0 else 1)
    ensures w in s.warnings || Reports(p, s, es, w) > 0 ==> w in Run(p, s, es).warnings
    ensures p.mode != Instrument && w !in s.warnings && w in Run(p, s, es).warnings ==> Reports(p, s, es, w) == 1
  {
    if es != [] {
      WarningsAreReportedOnce(p, s, es[..|es| - 1], w);
    }
  }

  /** Restoring a snapshot into any governor gives back exactly what the snapshot carries. */
  lemma RestoreKeeps(s: State, into: State)
    ensures var r := Restored(into, Take(s));
      && r.tokens == s.tokens && r.warnings == s.warnings && r.compactions == s.compactions && r.work.fingerprint == s.work.fingerprint
      && r.stop == into.stop && r.checks == into.checks && r.work == into.work.(fingerprint := s.work.fingerprint)
      && Take(r) == Take(s)
  {
  }

  /** One governor's life: its policy, its events, and the state into which its snapshot is restored. */
  datatype Life = Life(policy: Policy, events: seq<Event>, heir: State)

  /** The state after any number of lives, each restored from the snapshot of the one before. */
  function Lives(s: State, chain: seq<Life>): State {
    if chain == [] then s
    else
      var last := chain[|chain| - 1];
      Restored(last.heir, Take(Run(last.policy, Lives(s, chain[..|chain| - 1]), last.events)))
  }

  function ChainReports(s: State, chain: seq<Life>, w: Warning): nat {
    if chain == [] then 0
    else
      var front, last := chain[..|chain| - 1], chain[|chain| - 1];
      ChainReports(s, front, w) + Reports(last.policy, Lives(s, front), last.events, w)
  }

  /** Across any chain of snapshots and restorations a warning is reported at most once, and afterwards it is known. */
  lemma {:induction false} ReportedOnceAcrossRestore(s: State, chain: seq<Life>, w: Warning)
    ensures ChainReports(s, chain, w) <= (if w in s.warnings then 0 else 1)
    ensures w in s.warnings || ChainReports(s, chain, w) > 0 ==> w in Lives(s, chain).warnings
    ensures (forall i :: 0 <= i < |chain| ==> chain[i].policy.mode != Instrument) && w !in s.warnings && w in Lives(s, chain).warnings ==>
      ChainReports(s, chain, w) == 1
  {
    if chain != [] {
      var front, last := chain[..|chain| - 1], chain[|chain| - 1];
      ReportedOnceAcrossRestore(s, front, w);
      WarningsAreReportedOnce(last.policy, Lives(s, front), last.events, w);
    }
  }

  /** A stop reason may be replaced by another one but is never cleared; only an enforcing policy sets one. */
  lemma {:induction false} StopsAreKept(p: Policy, s: State, es: seq<Event>)
    ensures s.stop.Some? ==> Run(p, s, es).stop.Some?
    ensures p.mode != Enforce ==> Run(p, s, es).stop == s.stop
  {
    if es != [] {
      StopsAreKept(p, s, es[..|es| - 1]);
    }
  }

  /** What can stop a governor that knows no more than a snapshot, when it observes `e`. */
  predicate SnapshotStops(p: Policy, x: Snapshot, e: Event)
    requires e.Observe?
  {
    var total := Max(x.total, e.total);
    || total >= p.maxTurnInput
    || (x.compactions > p.maxCompactions && total - x.total + x.sinceProgress >= p.noProgress)
    || (e.context.Some? && e.context.value >= p.contextSoft && e.context.value >= p.contextHard)
    || p.failureThreshold == 0 || p.commandThreshold == 0
  }

  /** Nothing was counted in an empty map. */
  lemma EmptyCounts(n: int)
    ensures AtLeast(map[], n) <==> n <= 0
  {
  }

  /**
   A snapshot carries no stop reason, so a governor restored from it into a fresh one is not
   stopped. Its next observation stops it exactly if the policy enforces and the turn's input,
   the compactions without progress or the context are past their limits, for these come from the
   snapshot and the event; loops of commands, reads and checks and exploration are counted anew.
   */
  lemma RestoredStopsExactly(p: Policy, x: Snapshot, e: Event)
    requires e.Observe?
    ensures Restored(FRESH, x).stop.None?
    ensures Step(p, Restored(FRESH, x), e).stop.Some? <==> p.mode == Enforce && SnapshotStops(p, x, e)
  {
    EmptyCounts(3);
    EmptyCounts(p.failureThreshold);
    EmptyCounts(p.commandThreshold);
    EmptyCounts(p.commandThreshold - 1);
  }

  const ENFORCING := Policy(Enforce, 2000, 4000, 3000, 5000, 9000, 9000, 3, 3, 2)
  const FAILURE := Command("make", true, true)
  const LOOK := Event.Observe(1000, None, None)

  /** A governor stopped for a loop of commands, and its restored copy, which the same observation does not stop. */
  lemma LoopIsForgotten()
    ensures var s := Run(ENFORCING, FRESH, [FAILURE, FAILURE, FAILURE, LOOK]);
            s.stop == Some(ToolLoop) && Step(ENFORCING, Restored(FRESH, Take(s)), LOOK).stop.None?
  {
    var three, two, one := [FAILURE, FAILURE, FAILURE], [FAILURE, FAILURE], [FAILURE];
    var all := three + [LOOK];
    assert all == [FAILURE, FAILURE, FAILURE, LOOK] && all[..3] == three && three[..2] == two && two[..1] == one && one[..0] == [];
    var s1 := OnCommand(FRESH, "make", true, true);
    var s2 := OnCommand(s1, "make", true, true);
    var s3 := OnCommand(s2, "make", true, true);
    assert Run(ENFORCING, FRESH, []) == FRESH;
    assert Run(ENFORCING, FRESH, one) == s1;
    assert Run(ENFORCING, FRESH, two) == s2;
    assert Run(ENFORCING, FRESH, three) == s3;
    assert s3.work.repeats["make"] == 3;
    var s := OnObserve(ENFORCING, s3, 1000, None, None);
    assert Run(ENFORCING, FRESH, all) == s;
    EmptyCounts(3);
    assert s.stop == Some(ToolLoop);
    RestoredStopsExactly(ENFORCING, Take(s), LOOK);
  }

  /** Once the turn's input limit is reached under enforcement, every later observation stops for it, restored or not. */
  lemma {:induction false} InputLimitIsFinal(p: Policy, s: State, es: seq<Event>, e: Event)
    requires p.mode == Enforce && s.tokens.total >= p.maxTurnInput && e.Observe?
    ensures Step(p, Run(p, s, es), e).stop == Some(TurnInputLimit)
    ensures forall into :: Step(p, Restored(into, Take(Run(p, s, es))), e).stop == Some(TurnInputLimit)
  {
    TotalIsMaximum(p, s, es);
  }

  /** Nothing stops discovery or repeated reading once the diff has changed in this governor. */
  lemma {:induction false} NoDiscoveryStopAfterEdit(p: Policy, s: State, es: seq<Event>, e: Event)
    requires s.work.diffChanges > 0 && s.stop.None? && e.Observe?
    ensures Step(p, Run(p, s, es), e).stop.Some? && Run(p, s, es).stop != Step(p, Run(p, s, es), e).stop
      ==> Step(p, Run(p, s, es), e).stop.value !in {ExplorationLimit, ReadLoop}
  {
    ChangesAreCounted(p, s, es);
  }
}
