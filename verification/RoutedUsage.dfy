/**
 The controller's own settlement of a routed turn: every reported request is priced again from
 the admitted catalogue, and the sum must match the reported totals.
 */
module RoutedUsage {
  import opened Prelude
  import opened TokenUsage

  datatype CatalogPrice = CatalogPrice(provider: string, model: string, pricing: Pricing)

  /** A reported request as it arrives: any JSON value, or an object with these members. */
  datatype Reported = Malformed | Reported(provider: string, model: string, kind: string, pricingId: Option<string>, usage: Usage)

  const MAX_REQUESTS: nat := 16

  /** The price of one reported request, if every check passes. */
  function Price(r: Reported, prices: map<string, CatalogPrice>): Option<real> {
    if r.Malformed? || r.pricingId.None? || r.pricingId.value !in prices then None
    else
      var price := prices[r.pricingId.value];
      if (price.provider, price.model) != (r.provider, r.model) || r.usage.providerCost.Some? || !Valid(r.usage) then None
      else Calculate(price.pricing, r.usage)
  }

  ghost predicate AllPriced(rs: seq<Reported>, prices: map<string, CatalogPrice>) {
    forall i :: 0 <= i < |rs| ==> Price(rs[i], prices).Some?
  }

  function PriceSum(rs: seq<Reported>, prices: map<string, CatalogPrice>): real {
    if rs == [] then 0.0
    else PriceSum(rs[..|rs| - 1], prices) + (if Price(rs[|rs| - 1], prices).Some? then Price(rs[|rs| - 1], prices).value else 0.0)
  }

  function UsageSum(rs: seq<Reported>): Totals {
    if rs == [] then ZERO
    else if rs[|rs| - 1].Malformed? then UsageSum(rs[..|rs| - 1])
    else Add(UsageSum(rs[..|rs| - 1]), rs[|rs| - 1].usage)
  }

  predicate SameTokens(t: Totals, total: Usage) {
    total.input == Some(t.input) && total.output == Some(t.output)
    && total.cacheReads == Some(t.cacheReads) && total.cacheWrites == Some(t.cacheWrites)
  }

  /** What `settled_cost` promises: a cost exactly when everything can be verified. */
  ghost function Settled(rs: seq<Reported>, total: Usage, prices: map<string, CatalogPrice>): Option<real> {
    if Complete(total) && |rs| <= MAX_REQUESTS && AllPriced(rs, prices) && SameTokens(UsageSum(rs), total)
    then Some(PriceSum(rs, prices)) else None
  }

  /** `settled_cost`. */
  method SettledCost(requests: seq<Reported>, total: Usage, prices: map<string, CatalogPrice>) returns (result: Option<real>)
    ensures result == Settled(requests, total, prices)
  {
    if !Complete(total) || |requests| > MAX_REQUESTS {
      return None;
    }
    var observed, cost := ZERO, 0.0;
    var i := 0;
    while i < |requests|
      invariant 0 <= i <= |requests|
      invariant AllPriced(requests[..i], prices)
      invariant cost == PriceSum(requests[..i], prices) && observed == UsageSum(requests[..i])
    {
      var request := requests[i];
      assert requests[..i + 1][..i] == requests[..i];
      if request.Malformed? || request.pricingId.None? || request.pricingId.value !in prices {
        return None;
      }
      var price := prices[request.pricingId.value];
      if price.provider != request.provider || price.model != request.model {
        return None;
      }
      if request.usage.providerCost.Some? || !Valid(request.usage) {
        return None;
      }
      var amount := Calculate(price.pricing, request.usage);
      if amount.None? {
        return None;
      }
      cost := cost + amount.value;
      observed := Add(observed, request.usage);
      i := i + 1;
    }
    assert requests[..i] == requests;
    return if SameTokens(observed, total) then Some(cost) else None;
  }
}
