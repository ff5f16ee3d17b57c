/**
 Whole turns of the runner's ledger: what it never exceeds, what it conserves, and when the
 controller's independent settlement agrees with it.
 */
module InferenceBounds {
  import opened Prelude
  import opened TokenUsage
  import opened RoutedUsage
  import opened BoundedInference

  // ----------------------------------------------------------------- call counts

  lemma {:induction false} CallSumConcat(a: seq<(string, nat)>, b: seq<(string, nat)>)
    ensures CallSum(a + b) == CallSum(a) + CallSum(b)
  {
    if b == [] {
      assert a + b == a;
    } else {
      CallSumConcat(a, b[..|b| - 1]);
      assert (a + b)[..|a + b| - 1] == a + b[..|b| - 1];
    }
  }

  lemma {:induction false} BumpAddsOne(calls: seq<(string, nat)>, kind: string)
    ensures CallSum(Bump(calls, kind)) == CallSum(calls) + 1
  {
    if calls != [] {
      assert calls == [calls[0]] + calls[1..];
      CallSumConcat([calls[0]], calls[1..]);
      CallSumConcat([(kind, calls[0].1 + 1)], calls[1..]);
      CallSumConcat([calls[0]], Bump(calls[1..], kind));
      BumpAddsOne(calls[1..], kind);
    }
  }

  // ---------------------------------------------------------------- conservation

  /** Everything the turn may be charged for is in the controller's catalogue. */
  ghost predicate Catalogued(settings: Settings, prices: map<string, CatalogPrice>) {
    && (settings.pricing.Some? ==>
          settings.pricingId.Some? && settings.pricingId.value in prices
          && prices[settings.pricingId.value] == CatalogPrice(settings.provider, settings.model, settings.pricing.value))
    && (forall i :: 0 <= i < |settings.routes| ==>
          settings.routes[i].pricingId in prices
          && prices[settings.routes[i].pricingId]
             == CatalogPrice(settings.routes[i].provider, settings.routes[i].model, settings.routes[i].pricing))
  }

  function UsageOfKind(rs: seq<Reported>, kind: string): Totals {
    if rs == [] then ZERO
    else
      var last := rs[|rs| - 1];
      if last.Reported? && last.kind == kind then Add(UsageOfKind(rs[..|rs| - 1], kind), last.usage)
      else UsageOfKind(rs[..|rs| - 1], kind)
  }

  /** Cost, totals and the totals of every kind are exactly what the priced requests add up to. */
  ghost predicate Conserved(l: Ledger, prices: map<string, CatalogPrice>) {
    && AllPriced(l.entries, prices)
    && l.cost == PriceSum(l.entries, prices)
    && l.totals == UsageSum(l.entries)
    && (forall kind :: KindTotals(l.byKind, kind) == UsageOfKind(l.entries, kind))
    && Valid(Measured(l.totals))
  }

  /** Every request made is priced, except at most the last one, which then is what is uncertain. */
  ghost predicate Counted(l: Ledger, prior: Option<Prior>) {
    && CallSum(l.calls) == l.sent
    && l.sent + (if prior.Some? then 1 else 0) == |l.entries| + PriorCalls(prior) + (if l.uncertain then 1 else 0)
  }

  function PriorCalls(prior: Option<Prior>): nat {
    if prior.Some? then prior.value.calls else 0
  }

  lemma {:induction false} ChosenIsCatalogued(settings: Settings, routes: seq<Route>, kind: string, mode: string, prices: map<string, CatalogPrice>)
    requires forall i :: 0 <= i < |routes| ==>
      routes[i].pricingId in prices && prices[routes[i].pricingId] == CatalogPrice(routes[i].provider, routes[i].model, routes[i].pricing)
    ensures var r := FirstRoute(routes, kind, mode);
      r.Some? ==> r.value.pricingId in prices
                  && prices[r.value.pricingId] == CatalogPrice(r.value.provider, r.value.model, r.value.pricing)
  {
    if routes != [] && !(routes[0].role == kind && mode in routes[0].modes) {
      ChosenIsCatalogued(settings, routes[1..], kind, mode, prices);
    }
  }

  lemma Appended(rs: seq<Reported>, r: Reported, prices: map<string, CatalogPrice>)
    requires r.Reported? && Price(r, prices).Some?
    ensures PriceSum(rs + [r], prices) == PriceSum(rs, prices) + Price(r, prices).value
    ensures UsageSum(rs + [r]) == Add(UsageSum(rs), r.usage)
    ensures forall kind :: UsageOfKind(rs + [r], kind)
                        == if kind == r.kind then Add(UsageOfKind(rs, kind), r.usage) else UsageOfKind(rs, kind)
  {
    assert (rs + [r])[..|rs|] == rs;
  }

  lemma AnswerConserves(l: Ledger, target: Target, q: Request, prices: map<string, CatalogPrice>)
    requires Conserved(l, prices)
    requires target.pricing.Some? ==> (
               && target.pricingId.Some? && target.pricingId.value in prices
               && prices[target.pricingId.value] == CatalogPrice(target.provider, target.model, target.pricing.value))
    ensures Conserved(Answered(l, target, q), prices)
  {
    if Accounted(target, q.response).Some? {
      var r := Reported(target.provider, target.model, q.kind, target.pricingId, Read(q.response));
      assert Price(r, prices) == Accounted(target, q.response);
      Appended(l.entries, r, prices);
      MeasuredSumsAreValid(l.totals, r.usage);
    }
  }

  lemma GenerateConserves(settings: Settings, l: Ledger, q: Request, prices: map<string, CatalogPrice>)
    requires Catalogued(settings, prices) && Conserved(l, prices)
    ensures Conserved(Generated(settings, l, q), prices)
  {
    ChosenIsCatalogued(settings, settings.routes, q.kind, q.mode, prices);
    if Refusal(settings, l, q).None? {
      AnswerConserves(Asked(l, q.kind), Chosen(settings, q.kind, q.mode), q, prices);
    }
  }

  lemma GenerateCounts(settings: Settings, l: Ledger, q: Request, prior: Option<Prior>)
    requires Counted(l, prior)
    ensures Counted(Generated(settings, l, q), prior)
    ensures Generated(settings, l, q).sent <= l.sent + 1
    ensures Generated(settings, l, q).sent > l.sent ==> l.sent < MAX_CALLS && !l.uncertain
  {
    BumpAddsOne(l.calls, q.kind);
  }

  lemma StartConserves(settings: Settings, prior: Option<Prior>, prices: map<string, CatalogPrice>)
    requires Catalogued(settings, prices) && (prior.Some? ==> Valid(Measured(prior.value.totals)))
    requires !Start(settings, prior).uncertain
    ensures Conserved(Start(settings, prior), prices)
  {
    if prior.Some? {
      var r := Reported(settings.provider, settings.model, "fast_attempt", settings.pricingId, Measured(prior.value.totals));
      assert Price(r, prices) == Calculate(settings.pricing.value, Measured(prior.value.totals));
      Appended([], r, prices);
      assert [] + [r] == [r];
    }
  }

  /** Over any turn: cost, totals and per-kind usage are conserved, and requests are counted. */
  lemma {:induction false} TurnConserves(settings: Settings, prior: Option<Prior>, qs: seq<Request>, prices: map<string, CatalogPrice>)
    requires Catalogued(settings, prices) && (prior.Some? ==> Valid(Measured(prior.value.totals)))
    requires !Start(settings, prior).uncertain
    ensures Conserved(Run(settings, Start(settings, prior), qs), prices)
    ensures Counted(Run(settings, Start(settings, prior), qs), prior)
  {
    if qs == [] {
      StartConserves(settings, prior, prices);
      assert CallSum(Start(settings, prior).calls) == PriorCalls(prior) by {
        if prior.Some? {
          assert [("patch", prior.value.calls)][..0] == [];
        }
      }
    } else {
      var qs' := qs[..|qs| - 1];
      TurnConserves(settings, prior, qs', prices);
      GenerateConserves(settings, Run(settings, Start(settings, prior), qs'), qs[|qs| - 1], prices);
      GenerateCounts(settings, Run(settings, Start(settings, prior), qs'), qs[|qs| - 1], prior);
    }
  }

  // ------------------------------------------------------------------ no replays

  lemma {:induction false} RunConcat(settings: Settings, l: Ledger, qs: seq<Request>, more: seq<Request>)
    ensures Run(settings, l, qs + more) == Run(settings, Run(settings, l, qs), more)
  {
    if more == [] {
      assert qs + more == qs;
    } else {
      assert (qs + more)[..|qs + more| - 1] == qs + more[..|more| - 1];
      RunConcat(settings, l, qs, more[..|more| - 1]);
    }
  }

  lemma {:induction false} UncertainStays(settings: Settings, l: Ledger, more: seq<Request>)
    requires l.uncertain
    ensures Run(settings, l, more) == l
  {
    if more != [] {
      UncertainStays(settings, l, more[..|more| - 1]);
    }
  }

  /** After usage that is not accounted for, the turn never sends anything again. */
  lemma NothingAfterUncertain(settings: Settings, l: Ledger, qs: seq<Request>, more: seq<Request>)
    requires Run(settings, l, qs).uncertain
    ensures Run(settings, l, qs + more) == Run(settings, l, qs)
  {
    RunConcat(settings, l, qs, more);
    UncertainStays(settings, Run(settings, l, qs), more);
  }

  /** However many requests are tried, at most 16 are made, those of an earlier fast attempt included. */
  lemma {:induction false} AtMostSixteen(settings: Settings, l: Ledger, qs: seq<Request>)
    requires CallSum(l.calls) == l.sent <= MAX_CALLS
    ensures CallSum(Run(settings, l, qs).calls) == Run(settings, l, qs).sent <= MAX_CALLS
    ensures Run(settings, l, qs).sent <= l.sent + |qs|
  {
    if qs != [] {
      var l' := Run(settings, l, qs[..|qs| - 1]);
      AtMostSixteen(settings, l, qs[..|qs| - 1]);
      BumpAddsOne(l'.calls, qs[|qs| - 1].kind);
    }
  }

  // ---------------------------------------------------------------------- bounds

  /** The hypothesis on one response: it stays within the token bounds of its admission. */
  predicate Bounded(q: Request) {
    q.response.Replied? && Valid(Read(q.response)) && Complete(Read(q.response)) ==> Fits(Read(q.response), BoundTokens(q), q.limit)
  }

  /** Valid prices under which reading the cache is never dearer than writing or not having it. */
  ghost predicate FairPrices(settings: Settings) {
    && (settings.pricing.Some? ==> ValidPricing(settings.pricing.value) && CacheIsCheaper(settings.pricing.value))
    && (forall i :: 0 <= i < |settings.routes| ==> ValidPricing(settings.routes[i].pricing) && CacheIsCheaper(settings.routes[i].pricing))
  }

  ghost predicate WithinLimits(settings: Settings, l: Ledger) {
    l.cost <= settings.maxCost && l.totals.input <= settings.maxTurnInput
  }

  lemma {:induction false} ChosenIsFair(routes: seq<Route>, kind: string, mode: string)
    requires forall i :: 0 <= i < |routes| ==> ValidPricing(routes[i].pricing) && CacheIsCheaper(routes[i].pricing)
    ensures var r := FirstRoute(routes, kind, mode); r.Some? ==> ValidPricing(r.value.pricing) && CacheIsCheaper(r.value.pricing)
  {
    if routes != [] && !(routes[0].role == kind && mode in routes[0].modes) {
      ChosenIsFair(routes[1..], kind, mode);
    }
  }

  lemma GenerateKeepsLimits(settings: Settings, l: Ledger, q: Request)
    requires FairPrices(settings) && WithinLimits(settings, l) && Bounded(q)
    ensures WithinLimits(settings, Generated(settings, l, q))
  {
    var target := Chosen(settings, q.kind, q.mode);
    ChosenIsFair(settings.routes, q.kind, q.mode);
    if Refusal(settings, l, q).None? && Accounted(target, q.response).Some? {
      BoundCovers(target.pricing.value, Read(q.response), BoundTokens(q), q.limit);
    }
  }

  /**
   A turn never spends more than its cost limit nor reads more than its input limit, if
   responses keep to their admitted token bounds and cached reads are not dearer than input.
   */
  lemma {:induction false} TurnKeepsLimits(settings: Settings, l: Ledger, qs: seq<Request>)
    requires FairPrices(settings) && WithinLimits(settings, l)
    requires forall i :: 0 <= i < |qs| ==> Bounded(qs[i])
    ensures WithinLimits(settings, Run(settings, l, qs))
  {
    if qs != [] {
      TurnKeepsLimits(settings, l, qs[..|qs| - 1]);
      GenerateKeepsLimits(settings, Run(settings, l, qs[..|qs| - 1]), qs[|qs| - 1]);
    }
  }

  /** With a dearer cached-read price, one admitted response within its token bounds overspends. */
  lemma DearCacheOverspends(p: Pricing, settings: Settings, l: Ledger, q: Request)
    requires ValidPricing(p) && !CacheIsCheaper(p)
    requires settings.routes == [] && settings.pricing == Some(p) && !l.uncertain && CallSum(l.calls) < MAX_CALLS
    requires BoundTokens(q) <= MAX_REQUEST_TOKENS && l.totals.input + BoundTokens(q) <= settings.maxTurnInput
    requires l.cost + Bound(p, BoundTokens(q), q.limit) == settings.maxCost
    requires q.response == Replied(AllCached(BoundTokens(q), q.limit), true)
    ensures Bounded(q) && Generated(settings, l, q).cost > settings.maxCost
  {
    DearCacheOverruns(p, BoundTokens(q), q.limit);
    assert Read(q.response) == AllCached(BoundTokens(q), q.limit);
  }

  // ------------------------------------------------------------------ settlement

  /** What the receipt reports as the turn's usage. */
  function ReceiptUsage(l: Ledger): Usage {
    if l.uncertain then Usage(None, None, None, None, None, None) else Measured(l.totals)
  }

  /**
   The controller's settlement of any turn equals the runner's own cost exactly, unless usage
   is uncertain or more requests are reported than the settlement takes.
   */
  lemma SettlementAgrees(settings: Settings, prior: Option<Prior>, qs: seq<Request>, prices: map<string, CatalogPrice>)
    requires Catalogued(settings, prices) && (prior.Some? ==> Valid(Measured(prior.value.totals)))
    ensures var l := Run(settings, Start(settings, prior), qs);
      Settled(l.entries, ReceiptUsage(l), prices)
      == if l.uncertain || |l.entries| > MAX_REQUESTS then None else Some(l.cost)
  {
    if Start(settings, prior).uncertain {
      UncertainStays(settings, Start(settings, prior), qs);
    } else {
      TurnConserves(settings, prior, qs, prices);
    }
  }

  /** An earlier attempt that counted its requests leaves room for its own entry. */
  lemma CountedPriorFits(settings: Settings, prior: Option<Prior>, qs: seq<Request>, prices: map<string, CatalogPrice>)
    requires Catalogued(settings, prices) && (prior.Some? ==> Valid(Measured(prior.value.totals)) && 1 <= prior.value.calls <= MAX_CALLS)
    ensures |Run(settings, Start(settings, prior), qs).entries| <= MAX_REQUESTS
  {
    if Start(settings, prior).uncertain {
      UncertainStays(settings, Start(settings, prior), qs);
    } else {
      TurnConserves(settings, prior, qs, prices);
      TurnConserves(settings, prior, [], prices);
      AtMostSixteen(settings, Start(settings, prior), qs);
    }
  }

  function Repeat(q: Request, n: nat): seq<Request> {
    seq(n, i => q)
  }

  /** The sum of `n` equal amounts. */
  function Times(n: nat, amount: real): real {
    if n == 0 then 0.0 else Times(n - 1, amount) + amount
  }

  lemma {:induction false} TimesGrows(n: nat, m: nat, amount: real)
    requires n <= m && amount >= 0.0
    ensures Times(n, amount) <= Times(m, amount)
  {
    if n < m {
      TimesGrows(n, m - 1, amount);
    }
  }

  /** A request that is cheap enough to be made 16 times, and priced every time. */
  ghost predicate Affordable(settings: Settings, q: Request) {
    && settings.routes == [] && settings.pricing.Some? && ValidPricing(settings.pricing.value)
    && q.response.Replied? && Fits(Read(q.response), BoundTokens(q), q.limit)
    && Calculate(settings.pricing.value, Read(q.response)).Some?
    && Calculate(settings.pricing.value, Read(q.response)).value <= Bound(settings.pricing.value, BoundTokens(q), q.limit)
    && BoundTokens(q) <= MAX_REQUEST_TOKENS && Times(MAX_CALLS, BoundTokens(q) as real) <= settings.maxTurnInput as real
    && Times(MAX_CALLS, Bound(settings.pricing.value, BoundTokens(q), q.limit)) <= settings.maxCost
  }

  /** One more affordable request is admitted and priced within its bound. */
  lemma AffordableStep(settings: Settings, l: Ledger, q: Request)
    requires Affordable(settings, q) && !l.uncertain && CallSum(l.calls) < MAX_CALLS
    requires l.totals.input + BoundTokens(q) <= settings.maxTurnInput
    requires l.cost + Bound(settings.pricing.value, BoundTokens(q), q.limit) <= settings.maxCost
    ensures var l' := Generated(settings, l, q);
      && !l'.uncertain && CallSum(l'.calls) == CallSum(l.calls) + 1 && |l'.entries| == |l.entries| + 1
      && l'.totals.input <= l.totals.input + BoundTokens(q)
      && l'.cost <= l.cost + Bound(settings.pricing.value, BoundTokens(q), q.limit)
  {
    BumpAddsOne(l.calls, q.kind);
  }

  /** After `n` affordable requests on top of an entry that was never counted. */
  ghost predicate Uncounted(l: Ledger, n: nat, tokens: int, b: real) {
    && !l.uncertain && CallSum(l.calls) == n && |l.entries| == n + 1
    && l.totals.input as real <= Times(n, tokens as real) && l.cost <= Times(n, b)
  }

  lemma UncountedStep(settings: Settings, l: Ledger, q: Request, n: nat, b: real)
    requires Affordable(settings, q) && 0 < n <= MAX_CALLS && b == Bound(settings.pricing.value, BoundTokens(q), q.limit)
    requires Uncounted(l, n - 1, BoundTokens(q), b)
    ensures Uncounted(Generated(settings, l, q), n, BoundTokens(q), b)
  {
    BoundIsNonNegative(settings.pricing.value, BoundTokens(q), q.limit);
    TimesGrows(n, MAX_CALLS, b);
    TimesGrows(n, MAX_CALLS, BoundTokens(q) as real);
    AffordableStep(settings, l, q);
  }

  lemma UncountedStart(settings: Settings, tokens: int, b: real)
    requires settings.pricing.Some?
    ensures Uncounted(Start(settings, Some(Prior(ZERO, 0))), 0, tokens, b)
  {
    NothingCostsNothing(settings.pricing.value);
    assert Start(settings, Some(Prior(ZERO, 0))).calls[..0] == [];
  }

  lemma {:induction false} UncountedTurn(settings: Settings, q: Request, n: nat, b: real)
    requires Affordable(settings, q) && n <= MAX_CALLS && b == Bound(settings.pricing.value, BoundTokens(q), q.limit)
    ensures Uncounted(Run(settings, Start(settings, Some(Prior(ZERO, 0))), Repeat(q, n)), n, BoundTokens(q), b)
  {
    if n == 0 {
      UncountedStart(settings, BoundTokens(q), b);
    } else {
      UncountedTurn(settings, q, n - 1, b);
      assert Repeat(q, n)[..n - 1] == Repeat(q, n - 1);
      UncountedStep(settings, Run(settings, Start(settings, Some(Prior(ZERO, 0))), Repeat(q, n - 1)), q, n, b);
    }
  }

  lemma NothingCostsNothing(p: Pricing)
    ensures Calculate(p, Measured(ZERO)) == Some(0.0)
  {
  }

  lemma BoundIsNonNegative(p: Pricing, tokens: int, limit: int)
    requires ValidPricing(p) && tokens >= 0 && limit >= 0
    ensures Bound(p, tokens, limit) >= 0.0
  {
    assert At(tokens, InputCeiling(p)) >= 0.0 && At(limit, p.output) >= 0.0;
  }

  /**
   The entry of an earlier attempt is counted as a call unless that attempt failed before its
   first request. Only then can a turn report 17 priced requests, and its cost is not settled.
   */
  lemma UncountedPriorOverflows(settings: Settings, q: Request, prices: map<string, CatalogPrice>)
    requires Affordable(settings, q) && Catalogued(settings, prices)
    ensures var l := Run(settings, Start(settings, Some(Prior(ZERO, 0))), Repeat(q, 16));
      !l.uncertain && l.sent == 16 && |l.entries| == 17 && Settled(l.entries, ReceiptUsage(l), prices).None?
  {
    UncountedTurn(settings, q, 16, Bound(settings.pricing.value, BoundTokens(q), q.limit));
    AtMostSixteen(settings, Start(settings, Some(Prior(ZERO, 0))), Repeat(q, 16));
    SettlementAgrees(settings, Some(Prior(ZERO, 0)), Repeat(q, 16), prices);
    assert CallSum(Start(settings, Some(Prior(ZERO, 0))).calls) == 0 by {
      assert Start(settings, Some(Prior(ZERO, 0))).calls[..0] == [];
    }
  }

  /**
   With requests cheap enough to use up the ceiling, every turn's certain usage is settled
   exactly when the earlier attempt, if any, counted at least one call.
   */
  lemma SettledExactlyWhenCounted(settings: Settings, q: Request, prior: Option<Prior>, prices: map<string, CatalogPrice>)
    requires Affordable(settings, q) && Catalogued(settings, prices)
    requires prior.Some? ==> Valid(Measured(prior.value.totals)) && prior.value.calls <= MAX_CALLS
                             && (prior.value.calls == 0 ==> prior.value.totals == ZERO)
    ensures (prior.Some? ==> prior.value.calls > 0) <==>
      (forall qs :: var l := Run(settings, Start(settings, prior), qs);
                    !l.uncertain ==> Settled(l.entries, ReceiptUsage(l), prices) == Some(l.cost))
  {
    if prior.Some? ==> prior.value.calls > 0 {
      forall qs ensures var l := Run(settings, Start(settings, prior), qs);
        !l.uncertain ==> Settled(l.entries, ReceiptUsage(l), prices) == Some(l.cost)
      {
        SettlementAgrees(settings, prior, qs, prices);
        CountedPriorFits(settings, prior, qs, prices);
      }
    } else {
      UncountedPriorOverflows(settings, q, prices);
      assert prior == Some(Prior(ZERO, 0));
    }
  }
}
