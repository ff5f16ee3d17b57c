/**
 Token counts and catalogue prices. Counts that are not available are None, never zero.
 Amounts are exact reals.
 */
module TokenUsage {
  import opened Prelude

  datatype Usage = Usage(
    input: Option<int>, output: Option<int>, cacheReads: Option<int>, cacheWrites: Option<int>,
    reasoning: Option<int>, providerCost: Option<real>)

  function OrZero(count: Option<int>): int {
    if count.Some? then count.value else 0
  }

  predicate NonNegative(count: Option<int>) {
    count.Some? ==> count.value >= 0
  }

  /** What the constructor accepts. */
  predicate Valid(u: Usage) {
    && NonNegative(u.input) && NonNegative(u.output) && NonNegative(u.cacheReads) && NonNegative(u.cacheWrites) && NonNegative(u.reasoning)
    && (u.providerCost.Some? ==> u.providerCost.value >= 0.0)
    && (u.input.Some? ==> OrZero(u.cacheReads) + OrZero(u.cacheWrites) <= u.input.value)
    && (u.output.Some? ==> OrZero(u.reasoning) <= u.output.value)
  }

  predicate Complete(u: Usage) {
    u.input.Some? && u.output.Some? && u.cacheReads.Some? && u.cacheWrites.Some?
  }

  /** US dollars per million tokens. */
  datatype Pricing = Pricing(input: real, output: real, cached: Option<real>, write: Option<real>)

  predicate ValidPricing(p: Pricing) {
    p.input >= 0.0 && p.output >= 0.0 && (p.cached.Some? ==> p.cached.value >= 0.0) && (p.write.Some? ==> p.write.value >= 0.0)
  }

  function Rate(price: Option<real>): real {
    if price.Some? then price.value else 0.0
  }

  const MILLION := 1000000.0

  /** The price of `n` tokens, in millionths of a dollar. */
  function At(n: int, rate: real): real {
    n as real * rate
  }

  /** The price of complete usage, in millionths of a dollar. */
  function Millionths(p: Pricing, input: int, output: int, cacheReads: int, cacheWrites: int): real {
    At(input - cacheReads - cacheWrites, p.input) + At(cacheReads, Rate(p.cached)) + At(cacheWrites, Rate(p.write)) + At(output, p.output)
  }

  /** `calculate`: unknown for partial usage, and for cache traffic that has no price. */
  function Calculate(p: Pricing, u: Usage): Option<real> {
    if !Complete(u) then None
    else if u.cacheReads.value != 0 && p.cached.None? then None
    else if u.cacheWrites.value != 0 && p.write.None? then None
    else Some(Millionths(p, u.input.value, u.output.value, u.cacheReads.value, u.cacheWrites.value) / MILLION)
  }

  // ---------------------------------------------------------------------- totals

  /** The five counters that every request adds to. */
  datatype Totals = Totals(input: int, output: int, cacheReads: int, cacheWrites: int, reasoning: int)

  const ZERO := Totals(0, 0, 0, 0, 0)

  function Add(t: Totals, u: Usage): Totals {
    Totals(t.input + OrZero(u.input), t.output + OrZero(u.output), t.cacheReads + OrZero(u.cacheReads),
           t.cacheWrites + OrZero(u.cacheWrites), t.reasoning + OrZero(u.reasoning))
  }

  /** `measured_usage`. */
  function Measured(t: Totals): Usage {
    Usage(Some(t.input), Some(t.output), Some(t.cacheReads), Some(t.cacheWrites), Some(t.reasoning), None)
  }

  lemma MeasuredSumsAreValid(t: Totals, u: Usage)
    requires Valid(Measured(t)) && Valid(u) && Complete(u)
    ensures Valid(Measured(Add(t, u))) && Complete(Measured(Add(t, u)))
  {
  }

  lemma Quotient(a: real, b: real)
    ensures (a + b) / MILLION == a / MILLION + b / MILLION
    ensures a <= b <==> a / MILLION <= b / MILLION
  {
  }

  lemma Spread(a: int, b: int, rate: real)
    ensures At(a + b, rate) == At(a, rate) + At(b, rate)
  {
  }

  lemma MillionthsAdd(p: Pricing, t: Totals, u: Totals)
    ensures Millionths(p, t.input + u.input, t.output + u.output, t.cacheReads + u.cacheReads, t.cacheWrites + u.cacheWrites)
         == Millionths(p, t.input, t.output, t.cacheReads, t.cacheWrites) + Millionths(p, u.input, u.output, u.cacheReads, u.cacheWrites)
  {
    Spread(t.input - t.cacheReads - t.cacheWrites, u.input - u.cacheReads - u.cacheWrites, p.input);
    Spread(t.cacheReads, u.cacheReads, Rate(p.cached));
    Spread(t.cacheWrites, u.cacheWrites, Rate(p.write));
    Spread(t.output, u.output, p.output);
  }

  /** Pricing distributes over addition: pricing a sum of requests is summing their prices. */
  lemma PricesAdd(p: Pricing, t: Totals, u: Usage)
    requires Valid(Measured(t)) && Valid(u) && Calculate(p, Measured(t)).Some? && Calculate(p, u).Some?
    ensures Calculate(p, Measured(Add(t, u))) == Some(Calculate(p, Measured(t)).value + Calculate(p, u).value)
  {
    var v := Add(ZERO, u);
    MillionthsAdd(p, t, v);
    Quotient(Millionths(p, t.input, t.output, t.cacheReads, t.cacheWrites), Millionths(p, v.input, v.output, v.cacheReads, v.cacheWrites));
  }

  // ------------------------------------------------------------- admission bound

  function Max(a: real, b: real): real {
    if a >= b then a else b
  }

  /** The cache-write price, or the input price where there is none or it is free. */
  function WriteOrInput(p: Pricing): real {
    if p.write.Some? && p.write.value != 0.0 then p.write.value else p.input
  }

  /** The dearest token that admission reckons with. */
  function InputCeiling(p: Pricing): real {
    Max(p.input, WriteOrInput(p))
  }

  /** What admission sets aside for a request of at most `tokens` input and `limit` output tokens. */
  function Bound(p: Pricing, tokens: int, limit: int): real {
    (At(tokens, InputCeiling(p)) + At(limit, p.output)) / MILLION
  }

  /** A response that stays within the token bounds of its admission. */
  predicate Fits(u: Usage, tokens: int, limit: int) {
    Valid(u) && Complete(u) && u.input.value <= tokens && u.output.value <= limit
  }

  /** Reading the cache never costs more than the dearest input token. */
  predicate CacheIsCheaper(p: Pricing) {
    p.cached.Some? ==> p.cached.value <= InputCeiling(p)
  }

  lemma Scale(n: int, rate: real, ceiling: real)
    requires n >= 0 && rate <= ceiling
    ensures At(n, rate) <= At(n, ceiling)
  {
  }

  lemma More(n: int, m: int, rate: real)
    requires n <= m && rate >= 0.0
    ensures At(n, rate) <= At(m, rate)
  {
    assert (m - n) as real * rate >= 0.0;
  }

  lemma BoundCovers(p: Pricing, u: Usage, tokens: int, limit: int)
    requires ValidPricing(p) && CacheIsCheaper(p) && Fits(u, tokens, limit) && Calculate(p, u).Some?
    ensures Calculate(p, u).value <= Bound(p, tokens, limit)
  {
    var top := InputCeiling(p);
    var uncached := u.input.value - u.cacheReads.value - u.cacheWrites.value;
    Scale(uncached, p.input, top);
    Scale(u.cacheReads.value, Rate(p.cached), top);
    Scale(u.cacheWrites.value, Rate(p.write), top);
    Spread(uncached, u.cacheReads.value, top);
    Spread(uncached + u.cacheReads.value, u.cacheWrites.value, top);
    More(u.input.value, tokens, top);
    More(u.output.value, limit, p.output);
    Quotient(Millionths(p, u.input.value, u.output.value, u.cacheReads.value, u.cacheWrites.value),
             At(tokens, top) + At(limit, p.output));
  }

  lemma DearCacheOverruns(p: Pricing, tokens: int, limit: int)
    requires ValidPricing(p) && tokens > 0 && limit >= 0 && !CacheIsCheaper(p)
    ensures Calculate(p, AllCached(tokens, limit)).Some? && Calculate(p, AllCached(tokens, limit)).value > Bound(p, tokens, limit)
  {
    var top := InputCeiling(p);
    assert At(tokens, p.cached.value) > At(tokens, top) by {
      assert tokens as real * (p.cached.value - top) > 0.0;
    }
    Quotient(Millionths(p, tokens, limit, tokens, 0), At(tokens, top) + At(limit, p.output));
  }

  /**
   Admission covers every response within its token bounds exactly when cached reads are not
   dearer than the dearest of the input and write prices: the code never looks at that price.
   */
  lemma BoundCoversExactly(p: Pricing, tokens: int, limit: int)
    requires ValidPricing(p) && tokens > 0 && limit >= 0
    ensures CacheIsCheaper(p) <==>
      (forall u :: Fits(u, tokens, limit) && Calculate(p, u).Some? ==> Calculate(p, u).value <= Bound(p, tokens, limit))
  {
    if CacheIsCheaper(p) {
      forall u | Fits(u, tokens, limit) && Calculate(p, u).Some? ensures Calculate(p, u).value <= Bound(p, tokens, limit) {
        BoundCovers(p, u, tokens, limit);
      }
    } else {
      DearCacheOverruns(p, tokens, limit);
      assert Fits(AllCached(tokens, limit), tokens, limit);
    }
  }

  /** A response whose whole input came from the cache. */
  function AllCached(tokens: int, limit: int): Usage {
    Usage(Some(tokens), Some(limit), Some(tokens), Some(0), Some(0), None)
  }
}
