/**
 The runner's own ledger: every planning, investigation and patch request of a turn is admitted,
 sent and priced here, and unaccounted usage stops the turn.
 */
module BoundedInference {
  import opened Prelude
  import opened TokenUsage
  import opened RoutedUsage

  datatype Route = Route(role: string, modes: set<string>, provider: string, model: string, pricing: Pricing, pricingId: string)

  datatype Settings = Settings(
    provider: string, model: string, pricing: Option<Pricing>, pricingId: Option<string>,
    routes: seq<Route>, maxCost: real, maxTurnInput: int)

  /** What comes back: nothing readable, or usage as reported and whether the response is complete. */
  datatype Response = Unreadable | Replied(counts: Usage, complete: bool)

  /** The normalized usage: a provider's own price is never read. */
  function Read(response: Response): Usage
    requires response.Replied?
  {
    response.counts.(providerCost := None)
  }

  /** One request: its payload in bytes, its output limit, and the response it will get. */
  datatype Request = Request(kind: string, mode: string, payload: nat, limit: nat, response: Response)

  datatype Stop =
    | ModelPolicy | UsageIncomplete | PatchLimit | TurnInputLimit | BudgetLimit
    | ResponseIncomplete | TransportFailure

  /** `calls` is a dictionary in insertion order; `sent` counts the requests of the whole turn. */
  datatype Ledger = Ledger(
    cost: real, entries: seq<Reported>, totals: Totals, uncertain: bool,
    calls: seq<(string, nat)>, byKind: map<string, Totals>, sent: nat)

  const MAX_CALLS: nat := 16
  const MAX_REQUEST_TOKENS := 100000

  /** Bytes of the payload and a margin: an upper bound on input tokens. */
  function BoundTokens(q: Request): int {
    q.payload + 1024
  }

  function CallSum(calls: seq<(string, nat)>): nat {
    if calls == [] then 0 else CallSum(calls[..|calls| - 1]) + calls[|calls| - 1].1
  }

  /** `calls[kind] = calls.get(kind, 0) + 1`. */
  function Bump(calls: seq<(string, nat)>, kind: string): seq<(string, nat)> {
    if calls == [] then [(kind, 1)]
    else if calls[0].0 == kind then [(kind, calls[0].1 + 1)] + calls[1..]
    else [calls[0]] + Bump(calls[1..], kind)
  }

  function KindTotals(byKind: map<string, Totals>, kind: string): Totals {
    if kind in byKind then byKind[kind] else ZERO
  }

  /** The first route for this role in this mode. */
  function FirstRoute(routes: seq<Route>, kind: string, mode: string): Option<Route> {
    if routes == [] then None
    else if routes[0].role == kind && mode in routes[0].modes then Some(routes[0])
    else FirstRoute(routes[1..], kind, mode)
  }

  datatype Target = Target(provider: string, model: string, pricing: Option<Pricing>, pricingId: Option<string>)

  function Chosen(settings: Settings, kind: string, mode: string): Target {
    match FirstRoute(settings.routes, kind, mode)
    case Some(r) => Target(r.provider, r.model, Some(r.pricing), Some(r.pricingId))
    case None => Target(settings.provider, settings.model, settings.pricing, settings.pricingId)
  }

  /** The admission checks, in the order in which they raise. */
  function Refusal(settings: Settings, l: Ledger, q: Request): Option<Stop> {
    var target := Chosen(settings, q.kind, q.mode);
    if target.provider != settings.provider then Some(ModelPolicy)
    else if l.uncertain then Some(UsageIncomplete)
    else if CallSum(l.calls) >= MAX_CALLS then Some(PatchLimit)
    else if BoundTokens(q) > MAX_REQUEST_TOKENS || l.totals.input + BoundTokens(q) > settings.maxTurnInput then Some(TurnInputLimit)
    else if target.pricing.None? || l.cost + Bound(target.pricing.value, BoundTokens(q), q.limit) > settings.maxCost then Some(BudgetLimit)
    else None
  }

  /** The price of a response that accounts for itself. */
  function Accounted(target: Target, response: Response): Option<real> {
    if response.Unreadable? || !Valid(Read(response)) || target.pricing.None? then None
    else Calculate(target.pricing.value, Read(response))
  }

  /** Admission written down before anything is sent: until usage arrives, the turn is uncertain. */
  function Asked(l: Ledger, kind: string): Ledger {
    l.(calls := Bump(l.calls, kind), sent := l.sent + 1, uncertain := true)
  }

  /** Usage that arrived complete and has a price. */
  function Recorded(l: Ledger, target: Target, kind: string, usage: Usage, amount: real): Ledger {
    l.(cost := l.cost + amount,
       entries := l.entries + [Reported(target.provider, target.model, kind, target.pricingId, usage)],
       totals := Add(l.totals, usage),
       byKind := l.byKind[kind := Add(KindTotals(l.byKind, kind), usage)],
       uncertain := false)
  }

  /** A response that does not account for itself changes nothing more. */
  function Answered(l: Ledger, target: Target, q: Request): Ledger {
    var amount := Accounted(target, q.response);
    if amount.None? then l else Recorded(l, target, q.kind, Read(q.response), amount.value)
  }

  /** `generate`: what one call leaves in the ledger. */
  function Generated(settings: Settings, l: Ledger, q: Request): Ledger {
    if Refusal(settings, l, q).Some? then l
    else
      var target := Chosen(settings, q.kind, q.mode);
      Answered(Asked(l, q.kind), target, q)
  }

  /** How one call ends for its caller; None is a usable response. */
  function Outcome(settings: Settings, l: Ledger, q: Request): Option<Stop> {
    if Refusal(settings, l, q).Some? then Refusal(settings, l, q)
    else Verdict(Chosen(settings, q.kind, q.mode), q.response)
  }

  function Verdict(target: Target, response: Response): Option<Stop> {
    if response.Unreadable? || !Valid(Read(response)) then Some(TransportFailure)
    else if Accounted(target, response).None? then Some(UsageIncomplete)
    else if !response.complete then Some(ResponseIncomplete)
    else None
  }

  /** What an earlier fast attempt of the same turn used, and how many requests it counted. */
  datatype Prior = Prior(totals: Totals, calls: nat)

  /** The ledger of a new execution, with or without an earlier fast attempt. */
  function Start(settings: Settings, prior: Option<Prior>): Ledger {
    match prior
    case None => Ledger(0.0, [], ZERO, false, [], map[], 0)
    case Some(p) =>
      var amount := if settings.pricing.Some? then Calculate(settings.pricing.value, Measured(p.totals)) else None;
      var empty := Ledger(0.0, [], p.totals, true, [("patch", p.calls)], map["fast_attempt" := p.totals], p.calls);
      if amount.None? then empty
      else empty.(cost := amount.value, uncertain := false,
                  entries := [Reported(settings.provider, settings.model, "fast_attempt", settings.pricingId, Measured(p.totals))])
  }

  function Run(settings: Settings, l: Ledger, qs: seq<Request>): Ledger {
    if qs == [] then l else Generated(settings, Run(settings, l, qs[..|qs| - 1]), qs[|qs| - 1])
  }

  // ----------------------------------------------------------------- the runner

  class Runner {
    const settings: Settings
    var cost: real
    var entries: seq<Reported>
    var totals: Totals
    var uncertain: bool
    var calls: seq<(string, nat)>
    var byKind: map<string, Totals>
    var requestCount: nat

    ghost function View(): Ledger
      reads this
    {
      Ledger(cost, entries, totals, uncertain, calls, byKind, requestCount)
    }

    constructor (settings: Settings, prior: Option<Prior>)
      ensures this.settings == settings && View() == Start(settings, prior)
    {
      this.settings := settings;
      cost, entries, totals, uncertain := 0.0, [], ZERO, false;
      calls, byKind, requestCount := [], map[], 0;
      if prior.Some? {
        totals := prior.value.totals;
        var amount := if settings.pricing.Some? then Calculate(settings.pricing.value, Measured(prior.value.totals)) else None;
        if amount.None? {
          uncertain := true;
        } else {
          cost := amount.value;
          entries := [Reported(settings.provider, settings.model, "fast_attempt", settings.pricingId, Measured(prior.value.totals))];
        }
        byKind := map["fast_attempt" := prior.value.totals];
        calls, requestCount := [("patch", prior.value.calls)], prior.value.calls;
      }
    }

    method CallsMade() returns (n: nat)
      ensures n == CallSum(calls)
    {
      n := 0;
      var i := 0;
      while i < |calls|
        invariant 0 <= i <= |calls| && n == CallSum(calls[..i])
      {
        assert calls[..i + 1][..i] == calls[..i];
        n := n + calls[i].1;
        i := i + 1;
      }
      assert calls[..i] == calls;
    }

    method FindRoute(kind: string, mode: string) returns (route: Option<Route>)
      ensures route == FirstRoute(settings.routes, kind, mode)
    {
      var i := 0;
      while i < |settings.routes|
        invariant 0 <= i <= |settings.routes|
        invariant FirstRoute(settings.routes[i..], kind, mode) == FirstRoute(settings.routes, kind, mode)
      {
        if settings.routes[i].role == kind && mode in settings.routes[i].modes {
          return Some(settings.routes[i]);
        }
        i := i + 1;
      }
      return None;
    }

    method CountCall(kind: string)
      modifies this`calls
      ensures calls == Bump(old(calls), kind)
    {
      var i := 0;
      while i < |calls| && calls[i].0 != kind
        invariant 0 <= i <= |calls| && calls == old(calls)
        invariant Bump(calls, kind) == calls[..i] + Bump(calls[i..], kind)
      {
        assert calls[i..][1..] == calls[i + 1..];
        i := i + 1;
      }
      if i < |calls| {
        assert calls[i..][1..] == calls[i + 1..];
        calls := calls[..i] + [(kind, calls[i].1 + 1)] + calls[i + 1..];
      } else {
        calls := calls + [(kind, 1)];
      }
    }

    /** The admission half of `generate`. */
    method Admit(q: Request) returns (target: Target, refusal: Option<Stop>)
      ensures target == Chosen(settings, q.kind, q.mode)
      ensures refusal == Refusal(settings, View(), q)
    {
      var route := FindRoute(q.kind, q.mode);
      target := if route.Some?
                then Target(route.value.provider, route.value.model, Some(route.value.pricing), Some(route.value.pricingId))
                else Target(settings.provider, settings.model, settings.pricing, settings.pricingId);
      if target.provider != settings.provider {
        return target, Some(ModelPolicy);
      }
      if uncertain {
        return target, Some(UsageIncomplete);
      }
      var made := CallsMade();
      if made >= MAX_CALLS {
        return target, Some(PatchLimit);
      }
      var tokens := BoundTokens(q);
      if tokens > MAX_REQUEST_TOKENS || totals.input + tokens > settings.maxTurnInput {
        return target, Some(TurnInputLimit);
      }
      if target.pricing.None? || cost + Bound(target.pricing.value, tokens, q.limit) > settings.maxCost {
        return target, Some(BudgetLimit);
      }
      refusal := None;
    }

    /** The settlement half of `generate`. */
    method Settle(target: Target, q: Request) returns (outcome: Option<Stop>)
      requires target.pricing.Some?
      modifies this
      ensures View() == Answered(old(View()), target, q)
      ensures outcome == Verdict(target, q.response)
    {
      outcome := Verdict(target, q.response);
      var amount := Accounted(target, q.response);
      if amount.None? {
        return;
      }
      var usage := Read(q.response);
      cost := cost + amount.value;
      entries := entries + [Reported(target.provider, target.model, q.kind, target.pricingId, usage)];
      totals := Add(totals, usage);
      byKind := byKind[q.kind := Add(KindTotals(byKind, q.kind), usage)];
      uncertain := false;
    }

    /** `generate`. */
    method Generate(q: Request) returns (outcome: Option<Stop>)
      modifies this
      ensures View() == Generated(settings, old(View()), q)
      ensures outcome == Outcome(settings, old(View()), q)
    {
      var target, refusal := Admit(q);
      if refusal.Some? {
        return refusal;
      }
      CountCall(q.kind);
      uncertain, requestCount := true, requestCount + 1;
      outcome := Settle(target, q);
    }
  }
}
