/**
 * The tiered-volume calculator: a per-provider base price per million tokens
 * and an ordered list of volume tiers, each with an optional token limit and
 * a discount rate applied to the whole volume.
 */
module ApiTiers {
  import opened Wrappers
  import opened Tokens

  /** A volume tier; a `None` limit is the table's `null`. */
  datatype Tier = Tier(name: string, limit: Option<nat>, rate: real)

  /** A provider's base price per million tokens and its tiers in table order. */
  datatype ProviderRates = ProviderRates(base: real, tiers: seq<Tier>)

  /**
   * What `calculateAPITier` returns: `null` for an unknown provider, the
   * matched tier's name and cost, or `undefined` when no tier matched.
   */
  datatype TierResult = UnknownProvider | Priced(tier: string, cost: real) | NoTierMatched

  /** The `APIRates` table. */
  const API_RATES: map<string, ProviderRates> := map[
    "OpenAI" := ProviderRates(20.0, [
      Tier("Tier 1", Some(5000000), 1.0),
      Tier("Tier 2", Some(50000000), 0.8),
      Tier("Tier 3", None, 0.6)]),
    "Anthropic" := ProviderRates(15.0, [
      Tier("Starter", Some(1000000), 1.0),
      Tier("Growth", Some(10000000), 0.85),
      Tier("Enterprise", None, 0.7)]),
    "Google" := ProviderRates(12.0, [
      Tier("Basic", Some(2000000), 1.0),
      Tier("Pro", Some(20000000), 0.75),
      Tier("Enterprise", None, 0.6)])]

  /**
   * The test `!limit || tokens <= limit`: a null limit, and also a limit of 0
   * (falsy in JavaScript), admits every token count.
   */
  predicate Admits(tier: Tier, tokens: nat)
  {
    tier.limit.None? || tier.limit.value == 0 || tokens <= tier.limit.value
  }

  /**
   * The three cases of the limit test: a null limit and a limit of 0 admit
   * every count; a positive limit admits exactly the counts up to it,
   * inclusive.
   */
  lemma AdmitsCases(tier: Tier, tokens: nat)
    ensures tier.limit.None? ==> Admits(tier, tokens)
    ensures tier.limit == Some(0) ==> Admits(tier, tokens)
    ensures tier.limit.Some? && tier.limit.value > 0 ==> (Admits(tier, tokens) <==> tokens <= tier.limit.value)
  {
  }

  /** Index i is the first tier, in table order, that admits the token count. */
  predicate IsFirstAdmitting(tiers: seq<Tier>, tokens: nat, i: nat)
  {
    i < |tiers| && Admits(tiers[i], tokens) && forall j :: 0 <= j < i ==> !Admits(tiers[j], tokens)
  }

  /** The index of the first tier that admits the token count, if any. */
  function FirstAdmitting(tiers: seq<Tier>, tokens: nat): (r: Option<nat>)
    ensures r.Some? ==> IsFirstAdmitting(tiers, tokens, r.value)
    ensures r.None? ==> forall j :: 0 <= j < |tiers| ==> !Admits(tiers[j], tokens)
  {
    if |tiers| == 0 then None
    else if Admits(tiers[0], tokens) then Some(0)
    else match FirstAdmitting(tiers[1..], tokens)
      case None => None
      case Some(k) => Some(k + 1)
  }

  /** The price of one token at a tier: the base price per million tokens times the tier's rate. */
  function TierCostPerToken(base: real, rate: real): (price: real)
  {
    base * rate / 1000000.0
  }

  /**
   * The flat cost `tokens * base * rate / 1000000`: every token of the volume
   * is charged the same per-token price, with no marginal brackets.
   */
  function TierCost(tokens: nat, base: real, rate: real): (cost: real)
    ensures cost == tokens as real * TierCostPerToken(base, rate)
    ensures base >= 0.0 && rate >= 0.0 ==> cost >= 0.0
  {
    assert base >= 0.0 && rate >= 0.0 ==> tokens as real * base >= 0.0 && base * rate >= 0.0;
    tokens as real * base * rate / 1000000.0
  }

  /**
   * The specification of `calculateAPITier`: null for an unknown provider;
   * otherwise the first admitting tier with the flat cost at its rate, or
   * undefined when no tier admits the count.
   */
  function ApiTier(tokens: nat, provider: string): (r: TierResult)
    ensures r.UnknownProvider? <==> provider !in API_RATES
    ensures r.Priced? ==>
      && provider in API_RATES
      && var rates := API_RATES[provider];
         exists i: nat :: IsFirstAdmitting(rates.tiers, tokens, i) &&
           r == Priced(rates.tiers[i].name, TierCost(tokens, rates.base, rates.tiers[i].rate))
    ensures r.NoTierMatched? ==>
      && provider in API_RATES
      && forall j :: 0 <= j < |API_RATES[provider].tiers| ==> !Admits(API_RATES[provider].tiers[j], tokens)
  {
    if provider !in API_RATES then UnknownProvider
    else
      var rates := API_RATES[provider];
      match FirstAdmitting(rates.tiers, tokens)
      case None => NoTierMatched
      case Some(i) => Priced(rates.tiers[i].name, TierCost(tokens, rates.base, rates.tiers[i].rate))
  }

  /** `calculateAPITier`: scans the tiers in table order and returns at the first match. */
  method CalculateApiTier(tokens: nat, provider: string) returns (r: TierResult)
    ensures r == ApiTier(tokens, provider)
  {
    if provider !in API_RATES {
      return UnknownProvider;
    }
    var rates := API_RATES[provider];
    var i := 0;
    while i < |rates.tiers|
      invariant 0 <= i <= |rates.tiers|
      invariant forall j :: 0 <= j < i ==> !Admits(rates.tiers[j], tokens)
    {
      var tier := rates.tiers[i];
      if tier.limit.None? || tier.limit.value == 0 || tokens <= tier.limit.value {
        return Priced(tier.name, TierCost(tokens, rates.base, tier.rate));
      }
      i := i + 1;
    }
    return NoTierMatched;
  }

  /**
   * `updateTokenCount`: the total is the sum of the two texts' estimates; it
   * is within a quarter of their combined code-unit length and within one
   * token of the estimate of their concatenation.
   */
  function UpdateTokenCount(promptText: string, responseText: string): (total: nat)
    ensures total == EstimateTokens(promptText) + EstimateTokens(responseText)
    ensures var length := Utf16Length(promptText) + Utf16Length(responseText);
      length <= 4 * total < length + 8
    ensures EstimateTokens(promptText + responseText) <= total <= EstimateTokens(promptText + responseText) + 1
  {
    SplitEstimate(promptText, responseText);
    EstimateTokens(promptText) + EstimateTokens(responseText)
  }

  /** A provider whose last tier is unbounded prices every token count. */
  lemma UnboundedLastTierMatches(tiers: seq<Tier>, tokens: nat)
    requires |tiers| > 0 && tiers[|tiers| - 1].limit.None?
    ensures FirstAdmitting(tiers, tokens).Some?
  {
  }

  /** Every shipped provider ends with an unbounded tier, so it prices every token count. */
  lemma KnownProvidersAlwaysPriced(tokens: nat, provider: string)
    requires provider in API_RATES
    ensures ApiTier(tokens, provider).Priced?
  {
    UnboundedLastTierMatches(API_RATES[provider].tiers, tokens);
  }

  /**
   * Admission is downward closed in the token count, so a larger count never
   * selects an earlier tier than a smaller one, whatever the table's order.
   */
  lemma TierIndexMonotone(tiers: seq<Tier>, smaller: nat, larger: nat)
    requires smaller <= larger && FirstAdmitting(tiers, larger).Some?
    ensures FirstAdmitting(tiers, smaller).Some?
    ensures FirstAdmitting(tiers, smaller).value <= FirstAdmitting(tiers, larger).value
  {
  }

  /** Zero tokens select the first tier of any non-empty list. */
  lemma ZeroTokensFirstTier(tiers: seq<Tier>)
    requires |tiers| > 0
    ensures FirstAdmitting(tiers, 0) == Some(0)
  {
  }

  /** Zero tokens cost nothing and select a shipped provider's first tier. */
  lemma ZeroTokensFree(provider: string)
    requires provider in API_RATES
    ensures ApiTier(0, provider) == Priced(API_RATES[provider].tiers[0].name, 0.0)
  {
  }

  /**
   * The configuration invariant of a tier list: every tier but the last has
   * a positive limit, those limits strictly ascend, and the last tier is
   * unbounded.
   */
  predicate WellOrderedTiers(tiers: seq<Tier>)
  {
    && |tiers| > 0
    && tiers[|tiers| - 1].limit.None?
    && (forall i :: 0 <= i < |tiers| - 1 ==> tiers[i].limit.Some? && tiers[i].limit.value > 0)
    && (forall i, j :: 0 <= i < j < |tiers| - 1 ==> tiers[i].limit.value < tiers[j].limit.value)
  }

  /**
   * The token count lies in tier i's bracket: above the previous tier's limit
   * (if any) and at most its own limit (unless it is the last tier).
   */
  predicate InBracket(tiers: seq<Tier>, i: nat, tokens: nat)
  {
    && i < |tiers|
    && (i == 0 || (tiers[i - 1].limit.Some? && tiers[i - 1].limit.value < tokens))
    && (i == |tiers| - 1 || (tiers[i].limit.Some? && tokens <= tiers[i].limit.value))
  }

  /**
   * Over a well-ordered list, the first-match scan selects exactly the tier
   * whose bracket holds the token count; the bounds are inclusive above.
   */
  lemma TierBracket(tiers: seq<Tier>, tokens: nat, i: nat)
    requires WellOrderedTiers(tiers)
    ensures FirstAdmitting(tiers, tokens) == Some(i) <==> InBracket(tiers, i, tokens)
  {
  }

  /** The shipped tier lists are well ordered. */
  lemma ShippedRatesWellOrdered(provider: string)
    requires provider in API_RATES
    ensures WellOrderedTiers(API_RATES[provider].tiers)
  {
  }

  /**
   * Anthropic's tier boundaries: 1,000,000 tokens is still Starter, 1,000,001
   * is Growth, 10,000,001 and 50,000,000 are Enterprise.
   */
  lemma AnthropicBoundaries()
    ensures ApiTier(1000000, "Anthropic") == Priced("Starter", 15.0)
    ensures ApiTier(1000001, "Anthropic") == Priced("Growth", 12.75001275)
    ensures ApiTier(10000001, "Anthropic").Priced? && ApiTier(10000001, "Anthropic").tier == "Enterprise"
    ensures ApiTier(50000000, "Anthropic") == Priced("Enterprise", 525.0)
  {
  }

  /**
   * Because the selected rate applies to the whole volume, crossing a tier
   * boundary lowers the bill: 1,000,001 Anthropic tokens cost less than
   * 1,000,000.
   */
  lemma FlatCostDropsAtBoundary()
    ensures ApiTier(1000001, "Anthropic").Priced? && ApiTier(1000000, "Anthropic").Priced?
    ensures ApiTier(1000001, "Anthropic").cost < ApiTier(1000000, "Anthropic").cost
  {
    AnthropicBoundaries();
  }
}
