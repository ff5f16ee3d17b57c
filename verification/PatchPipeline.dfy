/**
 The fast path of a turn: at most two patch requests with their own small ledger, and the
 handoff of that ledger to adaptive execution.
 */
module PatchPipeline {
  import opened Prelude
  import opened TokenUsage
  import opened RoutedUsage
  import opened BoundedInference
  import opened InferenceBounds

  /** What localization returns: sources, none, a diagnosis, or no usable result at all. */
  datatype Preparation = Prepared | NoSources | Diagnosed | Broken

  /** What became of a patch: clean checks, something to repair, missing tools, or an exception. */
  datatype Work = Clean | Rejected | ChecksFailed | ToolsMissing | Raised

  /** Everything one attempt will meet. `parsed`: the answer is a valid artifact; `patch`: its outcome is PATCH. */
  datatype Attempt = Attempt(
    prepared: Preparation, runtimeReady: bool, payload: nat, response: Response, parsed: bool, patch: bool, work: Work)

  datatype Failure = Completed | PatchLimitReached | BudgetExceeded | InputExceeded | IncompleteUsage | IncompleteResponse | PatchFailed | ToolFailure

  datatype Turn = Receipt(failure: Failure, usage: Usage) | Handoff(investigate: bool, prior: Prior)

  const PATCH_TOKENS := 6000

  function Sum(us: seq<Usage>): Totals {
    if us == [] then ZERO else Add(Sum(us[..|us| - 1]), us[|us| - 1])
  }

  /** Responses keep to the token bounds of their admission. */
  predicate Honest(a: Attempt) {
    a.response.Replied? && Valid(Read(a.response)) && Complete(Read(a.response))
    ==> Fits(Read(a.response), a.payload + 1024, PATCH_TOKENS)
  }

  ghost predicate Within(settings: Settings, totals: Totals) {
    && totals.input <= settings.maxTurnInput
    && (settings.pricing.Some? && Calculate(settings.pricing.value, Measured(totals)).Some? ==>
          Calculate(settings.pricing.value, Measured(totals)).value <= settings.maxCost)
  }

  ghost predicate Trustworthy(settings: Settings, attempts: seq<Attempt>) {
    && FairPrices(settings) && settings.maxCost >= 0.0 && settings.maxTurnInput >= 0
    && forall i :: 0 <= i < |attempts| ==> Honest(attempts[i])
  }

  /** What ends an attempt before its request is made, in the order of the checks; None is admission. */
  function BeforeRequest(settings: Settings, a: Attempt, first: bool, totals: Totals, sent: nat): Option<Turn> {
    var tokens := a.payload + 1024;
    var spent := if settings.pricing.Some? then Calculate(settings.pricing.value, Measured(totals)) else None;
    if first && (a.prepared.NoSources? || a.prepared.Diagnosed?) then Some(Handoff(true, Prior(totals, sent)))
    else if a.prepared.Diagnosed? || a.prepared.Broken? then Some(Receipt(PatchFailed, Measured(totals)))
    else if !a.runtimeReady then Some(Receipt(ToolFailure, Measured(totals)))
    else if spent.None? || spent.value + Bound(settings.pricing.value, tokens, PATCH_TOKENS) > settings.maxCost
    then Some(Receipt(BudgetExceeded, Measured(totals)))
    else if tokens > MAX_REQUEST_TOKENS || totals.input + tokens > settings.maxTurnInput
    then Some(Receipt(InputExceeded, Measured(totals)))
    else None
  }

  /** How an attempt whose usage is accounted for goes on: None is another attempt. */
  function AfterUsage(a: Attempt, totals: Totals, sent: nat): Option<Turn> {
    if !a.response.Replied? || !a.response.complete then Some(Receipt(IncompleteResponse, Measured(totals)))
    else if !a.parsed then Some(Receipt(PatchFailed, Measured(totals)))
    else if !a.patch then Some(Handoff(false, Prior(totals, sent)))
    else match a.work
      case Clean => Some(Receipt(Completed, Measured(totals)))
      case Raised => Some(Receipt(PatchFailed, Measured(totals)))
      case ToolsMissing => Some(Receipt(ToolFailure, Measured(totals)))
      case _ => None
  }

  const UNKNOWN_USAGE := Usage(None, None, None, None, None, None)

  /** The usage of a request that was made, or how the turn ends without it. */
  function Answer(a: Attempt): Result<Usage, Turn> {
    if a.response.Unreadable? || !Valid(Read(a.response)) then Err(Receipt(PatchFailed, UNKNOWN_USAGE))
    else if !Complete(Read(a.response)) then Err(Receipt(IncompleteUsage, UNKNOWN_USAGE))
    else Ok(Read(a.response))
  }

  datatype TurnEnd = TurnEnd(turn: Turn, sent: nat, answered: seq<Usage>)

  /** How a turn goes on after `answered`, the usage of the requests so far, from attempt `k` on. */
  function TurnFrom(settings: Settings, attempts: seq<Attempt>, k: nat, answered: seq<Usage>): TurnEnd
    decreases |attempts| - k
  {
    if k >= |attempts| then TurnEnd(Receipt(PatchLimitReached, Measured(Sum(answered))), k, answered)
    else
      var before := BeforeRequest(settings, attempts[k], k == 0, Sum(answered), k);
      if before.Some? then TurnEnd(before.value, k, answered)
      else
        var answer := Answer(attempts[k]);
        if answer.Err? then TurnEnd(answer.error, k + 1, answered)
        else
          var after := AfterUsage(attempts[k], Sum(answered + [answer.value]), k + 1);
          if after.Some? then TurnEnd(after.value, k + 1, answered + [answer.value])
          else TurnFrom(settings, attempts, k + 1, answered + [answer.value])
  }

  /** One more admitted request within its bounds keeps both limits. */
  lemma AdmittedStaysWithin(settings: Settings, totals: Totals, a: Attempt, first: bool, sent: nat)
    requires FairPrices(settings) && Honest(a)
    requires Valid(Measured(totals)) && BeforeRequest(settings, a, first, totals, sent).None? && Answer(a).Ok?
    ensures Within(settings, Add(totals, Answer(a).value))
  {
    var p, u := settings.pricing.value, Read(a.response);
    if Calculate(p, Measured(Add(totals, u))).Some? {
      BoundCovers(p, u, a.payload + 1024, PATCH_TOKENS);
      PricesAdd(p, totals, u);
    }
  }

  ghost predicate Answered(attempts: seq<Attempt>, answered: seq<Usage>) {
    |answered| <= |attempts| && forall i :: 0 <= i < |answered| ==> Answer(attempts[i]) == Ok(answered[i])
  }

  /** How the result of a turn follows from the requests that were made and accounted for. */
  ghost predicate Explains(turn: Turn, attempts: seq<Attempt>, sent: nat, answered: seq<Usage>) {
    && |answered| <= sent <= |answered| + 1 && sent <= |attempts|
    && (turn.Receipt? ==> turn.usage == if |answered| == sent then Measured(Sum(answered)) else UNKNOWN_USAGE)
    && (turn.Receipt? && turn.failure == Completed ==>
          1 <= sent == |answered| && attempts[sent - 1].patch && attempts[sent - 1].work == Clean)
    && (turn.Handoff? ==> turn.prior == Prior(Sum(answered), sent) && Valid(Measured(turn.prior.totals)))
    && (turn.Handoff? && turn.investigate ==> sent == 0 && |attempts| > 0 && attempts[0].prepared in {NoSources, Diagnosed})
    && (turn.Handoff? && !turn.investigate ==> 1 <= sent == |answered| && !attempts[sent - 1].patch)
  }

  /** An attempt that ends before its request is explained by the requests before it. */
  lemma EarlyEnd(settings: Settings, attempts: seq<Attempt>, totals: Totals, k: nat, answered: seq<Usage>)
    requires k < |attempts| && |answered| == k && totals == Sum(answered) && Valid(Measured(totals))
    requires BeforeRequest(settings, attempts[k], k == 0, totals, k).Some?
    ensures Explains(BeforeRequest(settings, attempts[k], k == 0, totals, k).value, attempts, k, answered)
  {
  }

  lemma UnansweredEnd(attempts: seq<Attempt>, k: nat, answered: seq<Usage>)
    requires k < |attempts| && |answered| == k && Answer(attempts[k]).Err?
    ensures Explains(Answer(attempts[k]).error, attempts, k + 1, answered)
  {
  }

  lemma LateEnd(attempts: seq<Attempt>, totals: Totals, k: nat, answered: seq<Usage>)
    requires 0 < k <= |attempts| && |answered| == k && totals == Sum(answered) && Valid(Measured(totals))
    ensures AfterUsage(attempts[k - 1], totals, k).Some? ==>
      Explains(AfterUsage(attempts[k - 1], totals, k).value, attempts, k, answered)
  {
  }

  /**
   The admission loop of `run_turn`, for a turn without earlier attempts. `answered` is the
   usage of every request that was accounted for.
   */
  method RunTurn(settings: Settings, attempts: seq<Attempt>) returns (turn: Turn, sent: nat, answered: seq<Usage>)
    requires |attempts| == 2
    ensures TurnEnd(turn, sent, answered) == TurnFrom(settings, attempts, 0, [])
    ensures sent <= 2 && Answered(attempts, answered) && Explains(turn, attempts, sent, answered)
    ensures Trustworthy(settings, attempts) ==> Within(settings, Sum(answered))
  {
    var totals := ZERO;
    sent, answered := 0, [];
    turn := Receipt(PatchLimitReached, Measured(totals));
    NothingIsWithin(settings, attempts);
    var attempt := 0;
    while attempt < 2
      invariant 0 <= attempt <= 2 && sent == attempt == |answered| && totals == Sum(answered)
      invariant Valid(Measured(totals)) && Answered(attempts, answered)
      invariant turn == Receipt(PatchLimitReached, Measured(totals))
      invariant Trustworthy(settings, attempts) ==> Within(settings, totals)
      invariant TurnFrom(settings, attempts, attempt, answered) == TurnFrom(settings, attempts, 0, [])
    {
      var a := attempts[attempt];
      var before := BeforeRequest(settings, a, attempt == 0, totals, sent);
      if before.Some? {
        EarlyEnd(settings, attempts, totals, attempt, answered);
        return before.value, sent, answered;
      }
      sent := sent + 1;
      var answer := Answer(a);
      if answer.Err? {
        UnansweredEnd(attempts, attempt, answered);
        return answer.error, sent, answered;
      }
      MeasuredSumsAreValid(totals, answer.value);
      if Trustworthy(settings, attempts) {
        AdmittedStaysWithin(settings, totals, a, attempt == 0, attempt);
      }
      assert (answered + [answer.value])[..|answered|] == answered;
      answered := answered + [answer.value];
      totals := Add(totals, answer.value);
      turn := Receipt(PatchLimitReached, Measured(totals));
      var after := AfterUsage(a, totals, sent);
      LateEnd(attempts, totals, sent, answered);
      if after.Some? {
        return after.value, sent, answered;
      }
      attempt := attempt + 1;
    }
  }

  lemma NothingIsWithin(settings: Settings, attempts: seq<Attempt>)
    ensures Trustworthy(settings, attempts) ==> Within(settings, ZERO)
  {
    if settings.pricing.Some? {
      NothingCostsNothing(settings.pricing.value);
    }
  }

  /**
   A fast attempt that asked for a larger plan counted its requests, so whatever adaptive
   execution does next is settled; one that never sent a request was not counted.
   */
  lemma HandoffSettles(settings: Settings, attempts: seq<Attempt>, turn: Turn, sent: nat, answered: seq<Usage>,
                       qs: seq<Request>, prices: map<string, CatalogPrice>)
    requires Catalogued(settings, prices) && |attempts| == 2
    requires Explains(turn, attempts, sent, answered) && turn.Handoff? && !turn.investigate
    ensures var l := Run(settings, Start(settings, Some(turn.prior)), qs);
      l.sent <= MAX_CALLS && (!l.uncertain ==> Settled(l.entries, ReceiptUsage(l), prices) == Some(l.cost))
  {
    var start := Start(settings, Some(turn.prior));
    assert start.calls[..0] == [];
    AtMostSixteen(settings, start, qs);
    SettlementAgrees(settings, Some(turn.prior), qs, prices);
    CountedPriorFits(settings, Some(turn.prior), qs, prices);
  }

  // ------------------------------------------------------------- saved patches

  /** The history of one generation, as far as recovery looks at it. */
  datatype Saved = RequestSaved | ResponseSaved | ChecksSaved(rejected: bool) | RecoverySaved | RecoveryEnded(completed: bool) | OtherSaved

  function Count(h: seq<Saved>, e: Saved): nat {
    multiset(h)[e]
  }

  /** The last thing saved is a rejected application of a response, and it was never recovered. */
  predicate Recoverable(h: seq<Saved>) {
    && h != [] && h[|h| - 1] == ChecksSaved(true)
    && ResponseSaved in h && RequestSaved in h && RecoverySaved !in h
  }

  /**
   One turn of a generation. If no request was made yet it works as usual and saves `made`;
   otherwise it may only recover, and may crash after the recovery was written down.
   */
  datatype Retry = Retry(crashes: bool, applies: bool, made: seq<Saved>)

  function Retried(h: seq<Saved>, x: Retry): seq<Saved> {
    if RequestSaved !in h then h + x.made
    else if !Recoverable(h) then h
    else if x.crashes then h + [RecoverySaved]
    else h + [RecoverySaved, RecoveryEnded(x.applies)]
  }

  function RetriedAll(h: seq<Saved>, xs: seq<Retry>): seq<Saved> {
    if xs == [] then h else Retried(RetriedAll(h, xs[..|xs| - 1]), xs[|xs| - 1])
  }

  class Generation {
    var history: seq<Saved>

    /** `recover_saved_patch`. */
    method RecoverSavedPatch(x: Retry) returns (recovered: Option<bool>)
      modifies this
      ensures history == if !Recoverable(old(history)) then old(history)
                         else if x.crashes then old(history) + [RecoverySaved]
                         else old(history) + [RecoverySaved, RecoveryEnded(x.applies)]
      ensures recovered == if Recoverable(old(history)) && !x.crashes then Some(x.applies) else None
    {
      if history == [] || history[|history| - 1] != ChecksSaved(true) {
        return None;
      }
      if ResponseSaved !in history || RequestSaved !in history || RecoverySaved in history {
        return None;
      }
      ghost var before := history;
      history := history + [RecoverySaved];
      if x.crashes {
        return None;
      }
      history := history + [RecoveryEnded(x.applies)];
      assert history == before + [RecoverySaved, RecoveryEnded(x.applies)];
      return Some(x.applies);
    }

    /** `run_turn` on the saved history of a generation: a generation that made a request makes no other. */
    method RetryTurn(x: Retry) returns (recovered: Option<bool>)
      modifies this
      ensures history == Retried(old(history), x)
      ensures recovered == if Recoverable(old(history)) && !x.crashes then Some(x.applies) else None
    {
      if RequestSaved in history {
        recovered := RecoverSavedPatch(x);
        return;
      }
      history := history + x.made;
      return None;
    }
  }

  lemma RetryKeeps(h: seq<Saved>, x: Retry)
    ensures RequestSaved in h ==> RequestSaved in Retried(h, x) && Count(Retried(h, x), RequestSaved) == Count(h, RequestSaved)
    ensures RequestSaved in h && RecoverySaved in h ==> Retried(h, x) == h
    ensures Recoverable(h) ==> Count(Retried(h, x), RecoverySaved) == 1
    ensures RequestSaved !in h && RecoverySaved !in h && RecoverySaved !in x.made ==> Count(Retried(h, x), RecoverySaved) == 0
  {
    if Recoverable(h) {
      assert multiset(h + [RecoverySaved]) == multiset(h) + multiset{RecoverySaved};
      assert multiset(h + [RecoverySaved, RecoveryEnded(x.applies)]) == multiset(h) + multiset{RecoverySaved, RecoveryEnded(x.applies)};
      assert forall i :: 0 <= i < |h| ==> Retried(h, x)[i] == h[i];
      var i :| 0 <= i < |h| && h[i] == RequestSaved;
      assert Retried(h, x)[i] == RequestSaved;
    }
    if RequestSaved !in h {
      assert multiset(h + x.made) == multiset(h) + multiset(x.made);
    }
  }

  /** Once a generation has made a request, no later turn of it makes another one. */
  lemma {:induction false} RequestsStop(h: seq<Saved>, xs: seq<Retry>)
    requires RequestSaved in h
    ensures RequestSaved in RetriedAll(h, xs) && Count(RetriedAll(h, xs), RequestSaved) == Count(h, RequestSaved)
  {
    if xs != [] {
      RequestsStop(h, xs[..|xs| - 1]);
      RetryKeeps(RetriedAll(h, xs[..|xs| - 1]), xs[|xs| - 1]);
    }
  }

  /** Only recovery itself writes its entry. */
  predicate WorksAsUsual(x: Retry) {
    RecoverySaved !in x.made
  }

  /**
   However many turns a generation has, with crashes anywhere, its saved patch is recovered at
   most once; after its first request, exactly if it was recoverable then and any turn followed.
   */
  lemma {:induction false} RecoveredAtMostOnce(h: seq<Saved>, xs: seq<Retry>)
    requires RecoverySaved !in h && forall i :: 0 <= i < |xs| ==> WorksAsUsual(xs[i])
    ensures Count(RetriedAll(h, xs), RecoverySaved) <= 1
    ensures RecoverySaved in RetriedAll(h, xs) ==> RequestSaved in RetriedAll(h, xs)
    ensures RequestSaved in h ==> Count(RetriedAll(h, xs), RecoverySaved) == (if Recoverable(h) && xs != [] then 1 else 0)
    ensures RequestSaved in h && (!Recoverable(h) || xs == []) ==> RetriedAll(h, xs) == h
  {
    if xs != [] {
      var front, last := xs[..|xs| - 1], xs[|xs| - 1];
      RecoveredAtMostOnce(h, front);
      assert WorksAsUsual(last);
      RetryKeeps(RetriedAll(h, front), last);
      if RequestSaved in h {
        RequestsStop(h, front);
      }
    }
  }
}
