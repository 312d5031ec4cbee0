/** The price of one model call. */
module CostPricing {
  import opened CostReports

  /** Cents per million tokens. */
  datatype Price = Price(input: nat, output: nat)

  const DEFAULT_PRICE := Price(250, 1000)

  const PRICES: map<string, Price> := map[
    "gpt-4o" := Price(250, 1000),
    "gpt-4o-mini" := Price(15, 60),
    "gpt-4.1" := Price(200, 800),
    "text-embedding-3-small" := Price(2, 2),
    "text-embedding-3-large" := Price(13, 13)]

  function PriceOf(model: string): Price {
    if model in PRICES then PRICES[model] else DEFAULT_PRICE
  }

  /** Python's `round` to an integer: the nearest one, the even one on a tie. */
  function RoundHalfEven(x: real): int {
    var low := x.Floor;
    var rest := x - low as real;
    if rest < 0.5 || (rest == 0.5 && low % 2 == 0) then low else low + 1
  }

  /** No other integer is nearer, and of two the even one is taken. */
  lemma RoundsToNearest(x: real)
    ensures -0.5 <= RoundHalfEven(x) as real - x <= 0.5
    ensures RoundHalfEven(x) as real - x in {-0.5, 0.5} ==> RoundHalfEven(x) % 2 == 0
  {
  }

  /** The price in dollars, before it is rounded. */
  function ExactCost(p: Price, prompt: nat, completion: nat): real {
    (prompt as real / 1_000_000.0) * (p.input as real / 100.0)
    + (completion as real / 1_000_000.0) * (p.output as real / 100.0)
  }

  /** The price rounded to eight places, as a number of hundred-millionths of a dollar. */
  function CalculateCost(model: string, prompt: nat, completion: nat): int {
    RoundHalfEven(ExactCost(PriceOf(model), prompt, completion) * 100_000_000.0)
  }

  /** Rounding to eight places loses nothing: at whole-cent prices per million
      tokens the exact cost has at most eight decimals. */
  lemma CostIsExact(model: string, prompt: nat, completion: nat)
    ensures CalculateCost(model, prompt, completion) as real ==
            ExactCost(PriceOf(model), prompt, completion) * 100_000_000.0
    ensures CalculateCost(model, prompt, completion) ==
            prompt * PriceOf(model).input + completion * PriceOf(model).output
  {
    hide PriceOf, ExactCost, RoundHalfEven;
    var p := PriceOf(model);
    ScaledCost(p, prompt, completion);
    RoundWhole(prompt * p.input + completion * p.output);
  }

  lemma ScaledCost(p: Price, prompt: nat, completion: nat)
    ensures ExactCost(p, prompt, completion) * 100_000_000.0 == (prompt * p.input + completion * p.output) as real
  {
    ScaledProduct(prompt, p.input);
    ScaledProduct(completion, p.output);
  }

  lemma ScaledProduct(tokens: nat, cents: nat)
    ensures (tokens as real / 1_000_000.0) * (cents as real / 100.0) * 100_000_000.0 == (tokens * cents) as real
  {
    var t, c := tokens as real, cents as real;
    assert (tokens * cents) as real == t * c;
    assert (t / 1_000_000.0) * (c / 100.0) == (t * c) / 100_000_000.0;
  }

  lemma RoundWhole(n: int)
    ensures RoundHalfEven(n as real) == n
  {
  }

  /** The price list: what a call of each listed model costs, in cents per million
      tokens, and that an unlisted model is charged like the first one. */
  lemma PricesAre(model: string, prompt: nat, completion: nat)
    ensures CalculateCost(model, prompt, completion) ==
            if model == "gpt-4o-mini" then 15 * prompt + 60 * completion
            else if model == "gpt-4.1" then 200 * prompt + 800 * completion
            else if model == "text-embedding-3-small" then 2 * prompt + 2 * completion
            else if model == "text-embedding-3-large" then 13 * prompt + 13 * completion
            else 250 * prompt + 1000 * completion
  {
    hide CalculateCost;
    CostIsExact(model, prompt, completion);
  }

  /** Records as the meter writes them: total tokens are prompt plus completion. */
  predicate Metered(r: Record) {
    r.total == r.prompt + r.completion && r.cost == CalculateCost(r.model, r.prompt, r.completion)
  }

  /** The token column of the time series agrees with the overview's sum of
      prompt and completion tokens. */
  lemma {:induction false} TokensAgree(records: seq<Record>)
    requires forall r :: r in records ==> Metered(r)
    ensures Sum(records).tokens == Sum(records).prompt + Sum(records).completion
  {
    if records != [] {
      assert records[|records| - 1] in records;
      TokensAgree(records[..|records| - 1]);
    }
  }
}
