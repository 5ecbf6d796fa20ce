/**
 * The cost engine of the model-comparison component: resolving a model's
 * attribute for one version, the cost of the entered request, the monthly
 * projection of a usage profile, and the metrics shown in each table row.
 */
module ModelComparison {
  import opened Tokens
  import opened ModelCatalog

  /** The metrics computed for one catalog row. */
  datatype Metrics = Metrics(
    promptTokens: nat,
    responseTokens: nat,
    totalTokens: nat,
    withinContext: bool,
    currentCost: Value,
    monthlyEstimate: Value)

  /**
   * `getModelValue`: an absent or falsy attribute is 'N/A'; an object yields
   * the version's entry, or 'N/A' when that entry is missing or falsy; a
   * scalar is returned as it is, whatever the version.
   */
  function GetModelValue(property: Field, version: string): (r: Value)
    ensures !Falsy(r)
    ensures property.Absent? ==> r == NOT_AVAILABLE
    ensures property.PerVersion? ==>
      r == (if version in property.entries && !Falsy(property.entries[version])
            then property.entries[version] else NOT_AVAILABLE)
    ensures property.Scalar? ==> r == (if Falsy(property.value) then NOT_AVAILABLE else property.value)
  {
    match property
    case Absent => NOT_AVAILABLE
    case PerVersion(entries) =>
      if version in entries && !Falsy(entries[version]) then entries[version] else NOT_AVAILABLE
    case Scalar(v) => if Falsy(v) then NOT_AVAILABLE else v
  }

  /** A scalar attribute resolves to the same value for every version. */
  lemma ScalarIgnoresVersion(v: Value, version1: string, version2: string)
    ensures GetModelValue(Scalar(v), version1) == GetModelValue(Scalar(v), version2)
  {
  }

  /**
   * JavaScript's `tokens <= v`: a string operand becomes NaN, and every
   * comparison with NaN is false.
   */
  function AtMost(tokens: nat, v: Value): (within: bool)
  {
    match v
    case Number(n) => tokens as real <= n
    case NaN => false
    case Label(_) => false
  }

  /**
   * The cost of one request, `(promptTokens * inputCost + responseTokens *
   * outputCost) / 1000` with prices per 1000 tokens. A string input cost is
   * passed through untouched; arithmetic with a non-number gives NaN.
   */
  function RequestCost(promptTokens: nat, responseTokens: nat, inputCost: Value, outputCost: Value): (r: Value)
    ensures inputCost.Label? ==> r == inputCost
    ensures r.Number? <==> inputCost.Number? && outputCost.Number?
    ensures !inputCost.Label? && !(inputCost.Number? && outputCost.Number?) ==> r == NaN
    ensures r.Number? && inputCost.n >= 0.0 && outputCost.n >= 0.0 ==> r.n >= 0.0
    ensures r.Number? ==> r.n * 1000.0 == promptTokens as real * inputCost.n + responseTokens as real * outputCost.n
  {
    if inputCost.Label? then inputCost
    else if inputCost.Number? && outputCost.Number? then
      Number((promptTokens as real * inputCost.n + responseTokens as real * outputCost.n) / 1000.0)
    else NaN
  }

  /** `n * v` in JavaScript, for a number of prompts and a cost that is not a string. */
  function Times(n: nat, v: Value): (product: Value)
  {
    match v
    case Number(x) => Number(n as real * x)
    case NaN => NaN
    case Label(_) => v
  }

  /**
   * `calculateMonthlyEstimate`: a string input cost is passed through;
   * otherwise the profile's prompt count times the cost of one request of the
   * profile's average size.
   */
  function CalculateMonthlyEstimate(inputCost: Value, outputCost: Value, usage: UsageProfile): (r: Value)
    ensures r == Times(usage.prompts, RequestCost(usage.avgPromptLength, usage.avgResponseLength, inputCost, outputCost))
    ensures inputCost.Label? ==> r == inputCost
  {
    if inputCost.Label? then inputCost
    else if inputCost.Number? && outputCost.Number? then
      var perRequest := (usage.avgPromptLength as real * inputCost.n + usage.avgResponseLength as real * outputCost.n) / 1000.0;
      assert RequestCost(usage.avgPromptLength, usage.avgResponseLength, inputCost, outputCost) == Number(perRequest);
      assert Times(usage.prompts, Number(perRequest)) == Number(usage.prompts as real * perRequest);
      Number(usage.prompts as real * perRequest)
    else NaN
  }

  /**
   * `calculateMetrics` for a model family, a version and the selected usage
   * level: token counts of both texts and their sum, whether the sum fits the
   * context window (inclusively), the request cost and the monthly estimate.
   */
  function CalculateMetrics(promptText: string, responseText: string, model: ModelSpec, version: string,
                            level: UsageLevel): (r: Metrics)
    ensures r.promptTokens == EstimateTokens(promptText)
    ensures r.responseTokens == EstimateTokens(responseText)
    ensures r.totalTokens == r.promptTokens + r.responseTokens
    ensures var window := GetModelValue(model.contextWindow, version);
      r.withinContext <==> window.Number? && r.totalTokens as real <= window.n
    ensures var inputCost, outputCost := GetModelValue(model.inputCost, version), GetModelValue(model.outputCost, version);
      && r.currentCost == RequestCost(r.promptTokens, r.responseTokens, inputCost, outputCost)
      && r.monthlyEstimate == CalculateMonthlyEstimate(inputCost, outputCost, MonthlyUsageEstimates(level))
    ensures GetModelValue(model.inputCost, version).Label? ==>
      r.currentCost == r.monthlyEstimate == GetModelValue(model.inputCost, version)
  {
    var promptTokens := EstimateTokens(promptText);
    var responseTokens := EstimateTokens(responseText);
    var totalTokens := promptTokens + responseTokens;
    var contextWindow := GetModelValue(model.contextWindow, version);
    var inputCost := GetModelValue(model.inputCost, version);
    var outputCost := GetModelValue(model.outputCost, version);
    var currentCost := RequestCost(promptTokens, responseTokens, inputCost, outputCost);
    var monthlyEstimate := CalculateMonthlyEstimate(inputCost, outputCost, MonthlyUsageEstimates(level));
    Metrics(promptTokens, responseTokens, totalTokens, AtMost(totalTokens, contextWindow), currentCost, monthlyEstimate)
  }

  /** The request cost does not decrease when either token count grows, for non-negative prices. */
  lemma RequestCostMonotone(prompt1: nat, response1: nat, prompt2: nat, response2: nat, inputCost: real, outputCost: real)
    requires prompt1 <= prompt2 && response1 <= response2
    requires inputCost >= 0.0 && outputCost >= 0.0
    ensures 0.0 <= RequestCost(prompt1, response1, Number(inputCost), Number(outputCost)).n
    ensures RequestCost(prompt1, response1, Number(inputCost), Number(outputCost)).n
         <= RequestCost(prompt2, response2, Number(inputCost), Number(outputCost)).n
  {
  }

  /** The monthly estimate depends on the usage profile only, never on the entered texts. */
  lemma MonthlyEstimateIgnoresText(prompt1: string, response1: string, prompt2: string, response2: string,
                                   model: ModelSpec, version: string, level: UsageLevel)
    ensures CalculateMetrics(prompt1, response1, model, version, level).monthlyEstimate
         == CalculateMetrics(prompt2, response2, model, version, level).monthlyEstimate
  {
  }

  /** Longer texts never make a metered request cheaper. */
  lemma CurrentCostMonotoneInText(prompt1: string, response1: string, prompt2: string, response2: string,
                                  model: ModelSpec, version: string, level: UsageLevel)
    requires Utf16Length(prompt1) <= Utf16Length(prompt2) && Utf16Length(response1) <= Utf16Length(response2)
    requires GetModelValue(model.inputCost, version).Number? && GetModelValue(model.inputCost, version).n >= 0.0
    requires GetModelValue(model.outputCost, version).Number? && GetModelValue(model.outputCost, version).n >= 0.0
    ensures CalculateMetrics(prompt1, response1, model, version, level).currentCost.Number?
    ensures CalculateMetrics(prompt1, response1, model, version, level).currentCost.n
         <= CalculateMetrics(prompt2, response2, model, version, level).currentCost.n
  {
    EstimateTokensMonotone(prompt1, prompt2);
    EstimateTokensMonotone(response1, response2);
    RequestCostMonotone(EstimateTokens(prompt1), EstimateTokens(response1), EstimateTokens(prompt2), EstimateTokens(response2),
                        GetModelValue(model.inputCost, version).n, GetModelValue(model.outputCost, version).n);
  }

  /** A higher usage level never projects a smaller monthly bill, for non-negative prices. */
  lemma MonthlyEstimateGrowsWithLevel(inputCost: real, outputCost: real)
    requires inputCost >= 0.0 && outputCost >= 0.0
    ensures var low := CalculateMonthlyEstimate(Number(inputCost), Number(outputCost), MonthlyUsageEstimates(Low));
      var medium := CalculateMonthlyEstimate(Number(inputCost), Number(outputCost), MonthlyUsageEstimates(Medium));
      var high := CalculateMonthlyEstimate(Number(inputCost), Number(outputCost), MonthlyUsageEstimates(High));
      low.Number? && medium.Number? && high.Number? && 0.0 <= low.n <= medium.n <= high.n
  {
  }

  /**
   * For a well-formed model and a listed version: the context window is a
   * number and the row is within context exactly when the total does not
   * exceed it; the costs are both non-negative numbers or both the
   * self-hosted marker, never NaN and never 'N/A'.
   */
  lemma WellFormedMetrics(promptText: string, responseText: string, model: ModelSpec, version: string,
                          level: UsageLevel)
    requires WellFormedModel(model) && version in model.versions
    ensures var r := CalculateMetrics(promptText, responseText, model, version, level);
      var window := GetModelValue(model.contextWindow, version);
      && window.Number?
      && (r.withinContext <==> r.totalTokens as real <= window.n)
      && ((r.currentCost.Number? && r.currentCost.n >= 0.0 && r.monthlyEstimate.Number? && r.monthlyEstimate.n >= 0.0)
          || (r.currentCost == SELF_HOSTED && r.monthlyEstimate == SELF_HOSTED))
  {
  }

  /**
   * A version a well-formed model does not list resolves its window to 'N/A',
   * so the row is never within context, and both costs are the same marker
   * ('N/A', or 'Self-hosted' for a self-hosted model).
   */
  lemma UnlistedVersionMetrics(promptText: string, responseText: string, model: ModelSpec, version: string,
                               level: UsageLevel)
    requires WellFormedModel(model) && version !in model.versions
    ensures var r := CalculateMetrics(promptText, responseText, model, version, level);
      && !r.withinContext
      && r.currentCost == r.monthlyEstimate
      && (r.currentCost == NOT_AVAILABLE || r.currentCost == SELF_HOSTED)
  {
  }

  /** Every row of the shipped catalog has the shape of WellFormedMetrics. */
  lemma CatalogMetrics(promptText: string, responseText: string, provider: string, family: string, version: string,
                       level: UsageLevel)
    requires provider in MODEL_DATA && family in MODEL_DATA[provider]
    requires version in MODEL_DATA[provider][family].versions
    ensures var model := MODEL_DATA[provider][family];
      var r := CalculateMetrics(promptText, responseText, model, version, level);
      var window := GetModelValue(model.contextWindow, version);
      && window.Number?
      && (r.withinContext <==> r.totalTokens as real <= window.n)
      && ((r.currentCost.Number? && r.currentCost.n >= 0.0 && r.monthlyEstimate.Number? && r.monthlyEstimate.n >= 0.0)
          || (r.currentCost == SELF_HOSTED && r.monthlyEstimate == SELF_HOSTED))
  {
    CatalogWellFormed();
    WellFormedMetrics(promptText, responseText, MODEL_DATA[provider][family], version, level);
  }

  /** The self-hosted Llama family shows 'Self-hosted' for both costs, whatever the texts and the version. */
  lemma SelfHostedPassThrough(promptText: string, responseText: string, version: string, level: UsageLevel)
    ensures var r := CalculateMetrics(promptText, responseText, MODEL_DATA["Meta"]["Llama"], version, level);
      r.currentCost == SELF_HOSTED && r.monthlyEstimate == SELF_HOSTED
  {
  }

  /** The catalog attributes of Claude 3-Opus. */
  lemma ClaudeOpusAttributes()
    ensures MODEL_DATA["Anthropic"]["Claude"] == CLAUDE
    ensures GetModelValue(CLAUDE.contextWindow, "3-Opus") == Number(200000.0)
    ensures GetModelValue(CLAUDE.inputCost, "3-Opus") == Number(0.015)
    ensures GetModelValue(CLAUDE.outputCost, "3-Opus") == Number(0.075)
  {
  }

  /** At Claude 3-Opus's prices, 100 + 50 tokens cost 0.00525 and the medium profile projects 825. */
  lemma ClaudeOpusCosts()
    ensures RequestCost(100, 50, Number(0.015), Number(0.075)) == Number(0.00525)
    ensures CalculateMonthlyEstimate(Number(0.015), Number(0.075), MonthlyUsageEstimates(Medium)) == Number(825.0)
  {
  }

  /**
   * Claude 3-Opus with a prompt and a response of 400 and 200 code units:
   * 100 + 50 tokens, within the 200000-token window, costing
   * (100 * 0.015 + 50 * 0.075) / 1000 = 0.00525 now and
   * 5000 * (1000 * 0.015 + 2000 * 0.075) / 1000 = 825 a month at the medium level.
   */
  lemma ClaudeOpusExample(promptText: string, responseText: string)
    requires Utf16Length(promptText) == 400 && Utf16Length(responseText) == 200
    ensures var r := CalculateMetrics(promptText, responseText, MODEL_DATA["Anthropic"]["Claude"], "3-Opus", Medium);
      r == Metrics(100, 50, 150, true, Number(0.00525), Number(825.0))
  {
    EstimateTokensAtBoundaries(promptText, 100);
    EstimateTokensAtBoundaries(responseText, 50);
    ClaudeOpusAttributes();
    ClaudeOpusCosts();
  }

  /**
   * The context check is inclusive: with Llama-3.1-70b's 4096-token window, a
   * prompt of 16384 code units (4096 tokens) and an empty response fit, one
   * more code unit does not.
   */
  lemma ContextBoundaryExample(atWindow: string, overWindow: string)
    requires Utf16Length(atWindow) == 16384 && Utf16Length(overWindow) == 16385
    ensures CalculateMetrics(atWindow, "", MODEL_DATA["Meta"]["Llama"], "Llama-3.1-70b", Low).withinContext
    ensures !CalculateMetrics(overWindow, "", MODEL_DATA["Meta"]["Llama"], "Llama-3.1-70b", Low).withinContext
  {
    EstimateTokensAtBoundaries(atWindow, 4096);
    EstimateTokensAtBoundaries(overWindow, 4096);
  }
}
