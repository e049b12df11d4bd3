/** Dollar cost of a model call from its token counts, with exact prices. */
module CostCalculator {
  import opened Common

  /** Prices in dollars per million tokens. */
  datatype ModelPricing = ModelPricing(input: real, output: real)

  const Sonnet := "claude-3-5-sonnet-20241022"
  const Opus := "claude-3-opus-20240229"
  const Haiku := "claude-3-haiku-20240307"

  /** The `PRICING` table; every other model name is unknown. */
  function Pricing(model: string): (p: Option<ModelPricing>)
    ensures p.Some? <==> model in {Sonnet, Opus, Haiku}
    ensures p.Some? ==> p.value.output == 5.0 * p.value.input && p.value.input > 0.0
  {
    if model == Sonnet then Some(ModelPricing(3.0, 15.0))
    else if model == Opus then Some(ModelPricing(15.0, 75.0))
    else if model == Haiku then Some(ModelPricing(0.25, 1.25))
    else None
  }

  /** `calculateCost`: an unknown model costs nothing. */
  function CalculateCost(model: string, inputTokens: int, outputTokens: int): (cost: real)
    ensures Pricing(model).None? ==> cost == 0.0
    ensures Pricing(model).Some? ==>
      cost == (inputTokens as real / 1000000.0) * Pricing(model).value.input
            + (outputTokens as real / 1000000.0) * Pricing(model).value.output
  {
    match Pricing(model)
    case None => 0.0
    case Some(p) => (inputTokens as real / 1000000.0) * p.input + (outputTokens as real / 1000000.0) * p.output
  }

  /** No tokens, no cost. */
  lemma NoTokensNoCost(model: string)
    ensures CalculateCost(model, 0, 0) == 0.0
  {
  }

  /** More tokens of either kind never cost less. */
  lemma CostMonotone(model: string, in1: int, in2: int, out1: int, out2: int)
    requires in1 <= in2 && out1 <= out2
    ensures CalculateCost(model, in1, out1) <= CalculateCost(model, in2, out2)
  {
    match Pricing(model)
    case None =>
    case Some(p) =>
      assert (in1 as real / 1000000.0) * p.input <= (in2 as real / 1000000.0) * p.input;
      assert (out1 as real / 1000000.0) * p.output <= (out2 as real / 1000000.0) * p.output;
  }

  /** For a priced model, the cost of `i` input and `o` output tokens equals `i + 5o`
      input tokens' worth: output tokens are five times dearer. */
  lemma OutputFiveTimesInput(model: string, i: int, o: int)
    requires Pricing(model).Some?
    ensures CalculateCost(model, i, o) == CalculateCost(model, i + 5 * o, 0)
  {
  }

  /** `Math.ceil(n / 4)`: the ~4-characters-per-token estimate. */
  function CeilQuarter(n: int): (t: int)
    ensures 4 * (t - 1) < n <= 4 * t
  {
    (n + 3) / 4
  }

  const DefaultEstimatedOutputLength := 500

  /** `estimateCost(model, promptLength, estimatedOutputLength)`. */
  function EstimateCost(model: string, promptLength: int, estimatedOutputLength: int): (cost: real)
    ensures forall inTokens, outTokens ::
      4 * (inTokens - 1) < promptLength <= 4 * inTokens &&
      4 * (outTokens - 1) < estimatedOutputLength <= 4 * outTokens ==>
        cost == CalculateCost(model, inTokens, outTokens)
  {
    CalculateCost(model, CeilQuarter(promptLength), CeilQuarter(estimatedOutputLength))
  }

  /** The default output length of 500 characters is priced as 125 output tokens. */
  lemma DefaultOutputIs125Tokens(model: string, promptLength: int)
    ensures EstimateCost(model, promptLength, DefaultEstimatedOutputLength)
      == CalculateCost(model, CeilQuarter(promptLength), 125)
  {
  }
}
