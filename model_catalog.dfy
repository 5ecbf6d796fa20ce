/**
 * The static reference data of the model-comparison component: the catalog
 * of providers, model families and versions with their limits and unit
 * prices, and the three monthly usage profiles.
 */
module ModelCatalog {

  /**
   * A JavaScript value as the catalog and the cost formulas produce it: a
   * finite number (exact, as a real), NaN, or a string such as 'N/A' or
   * 'Self-hosted'.
   */
  datatype Value = Number(n: real) | NaN | Label(text: string)

  const NOT_AVAILABLE: Value := Label("N/A")
  const SELF_HOSTED: Value := Label("Self-hosted")

  /** JavaScript falsiness of a value: 0, NaN and the empty string. */
  predicate Falsy(v: Value)
  {
    v == Number(0.0) || v.NaN? || v == Label("")
  }

  /**
   * A model attribute: absent, an object keyed by version, or one scalar
   * shared by every version.
   */
  datatype Field = Absent | PerVersion(entries: map<string, Value>) | Scalar(value: Value)

  /** One model family of a provider. */
  datatype ModelSpec = ModelSpec(
    versions: seq<string>,
    contextWindow: Field,
    responseLimit: Field,
    inputCost: Field,
    outputCost: Field)

  /** The usage levels offered by the selector. */
  datatype UsageLevel = Low | Medium | High

  /** A usage profile: prompts per month and the average token sizes of one request. */
  datatype UsageProfile = UsageProfile(prompts: nat, avgPromptLength: nat, avgResponseLength: nat)

  /** The `monthlyUsageEstimates` table. */
  function MonthlyUsageEstimates(level: UsageLevel): (profile: UsageProfile)
  {
    match level
    case Low => UsageProfile(1000, 500, 1000)
    case Medium => UsageProfile(5000, 1000, 2000)
    case High => UsageProfile(20000, 2000, 4000)
  }

  /** Each usage level is larger than the one below it in every component. */
  lemma UsageLevelsAscend()
    ensures var low, medium, high := MonthlyUsageEstimates(Low), MonthlyUsageEstimates(Medium), MonthlyUsageEstimates(High);
      && low.prompts < medium.prompts < high.prompts
      && low.avgPromptLength < medium.avgPromptLength < high.avgPromptLength
      && low.avgResponseLength < medium.avgResponseLength < high.avgResponseLength
  {
  }

  const GPT_4: ModelSpec := ModelSpec(
    ["4-Opus", "4-Onyx", "4O", "O1"],
    PerVersion(map["4-Opus" := Number(128000.0), "4-Onyx" := Number(128000.0), "4O" := Number(256000.0), "O1" := Number(512000.0)]),
    PerVersion(map["4-Opus" := Number(4096.0), "4-Onyx" := Number(4096.0), "4O" := Number(8192.0), "O1" := Number(16384.0)]),
    PerVersion(map["4-Opus" := Number(0.01), "4-Onyx" := Number(0.015), "4O" := Number(0.02), "O1" := Number(0.025)]),
    PerVersion(map["4-Opus" := Number(0.03), "4-Onyx" := Number(0.045), "4O" := Number(0.06), "O1" := Number(0.075)]))

  const CLAUDE: ModelSpec := ModelSpec(
    ["3-Opus", "3-Sonnet", "3-Haiku", "3.5-Sonnet"],
    PerVersion(map["3-Opus" := Number(200000.0), "3-Sonnet" := Number(150000.0), "3-Haiku" := Number(100000.0), "3.5-Sonnet" := Number(200000.0)]),
    PerVersion(map["3-Opus" := Number(4096.0), "3-Sonnet" := Number(4096.0), "3-Haiku" := Number(2048.0), "3.5-Sonnet" := Number(4096.0)]),
    PerVersion(map["3-Opus" := Number(0.015), "3-Sonnet" := Number(0.003), "3-Haiku" := Number(0.0015), "3.5-Sonnet" := Number(0.005)]),
    PerVersion(map["3-Opus" := Number(0.075), "3-Sonnet" := Number(0.015), "3-Haiku" := Number(0.007), "3.5-Sonnet" := Number(0.025)]))

  const GEMINI: ModelSpec := ModelSpec(
    ["2.0-Ultra", "2.0-Pro", "1.5-Pro"],
    PerVersion(map["2.0-Ultra" := Number(128000.0), "2.0-Pro" := Number(64000.0), "1.5-Pro" := Number(32000.0)]),
    PerVersion(map["2.0-Ultra" := Number(8192.0), "2.0-Pro" := Number(4096.0), "1.5-Pro" := Number(2048.0)]),
    PerVersion(map["2.0-Ultra" := Number(0.012), "2.0-Pro" := Number(0.003), "1.5-Pro" := Number(0.002)]),
    PerVersion(map["2.0-Ultra" := Number(0.024), "2.0-Pro" := Number(0.006), "1.5-Pro" := Number(0.004)]))

  const LLAMA: ModelSpec := ModelSpec(
    ["Llama-3.1-70b", "Llama-3.1-13b", "Llama-3.2-70b", "Llama-3.2-13b"],
    PerVersion(map["Llama-3.1-70b" := Number(4096.0), "Llama-3.1-13b" := Number(4096.0), "Llama-3.2-70b" := Number(8192.0), "Llama-3.2-13b" := Number(8192.0)]),
    PerVersion(map["Llama-3.1-70b" := Number(2048.0), "Llama-3.1-13b" := Number(2048.0), "Llama-3.2-70b" := Number(4096.0), "Llama-3.2-13b" := Number(4096.0)]),
    Scalar(SELF_HOSTED),
    Scalar(SELF_HOSTED))

  const MISTRAL: ModelSpec := ModelSpec(
    ["Large", "Medium", "Small"],
    PerVersion(map["Large" := Number(32768.0), "Medium" := Number(32768.0), "Small" := Number(32768.0)]),
    PerVersion(map["Large" := Number(2048.0), "Medium" := Number(2048.0), "Small" := Number(2048.0)]),
    PerVersion(map["Large" := Number(0.007), "Medium" := Number(0.002), "Small" := Number(0.0006)]),
    PerVersion(map["Large" := Number(0.021), "Medium" := Number(0.006), "Small" := Number(0.0018)]))

  /** The `modelData` catalog: provider, then model family. */
  const MODEL_DATA: map<string, map<string, ModelSpec>> := map[
    "OpenAI" := map["GPT-4" := GPT_4],
    "Anthropic" := map["Claude" := CLAUDE],
    "Google" := map["Gemini" := GEMINI],
    "Meta" := map["Llama" := LLAMA],
    "Mistral" := map["Mistral" := MISTRAL]]

  /**
   * A field keyed by exactly the listed versions, each entry a positive
   * number.
   */
  predicate CoversVersions(f: Field, versions: seq<string>)
  {
    && f.PerVersion?
    && (forall i :: 0 <= i < |versions| ==> versions[i] in f.entries)
    && (forall v :: v in f.entries ==> v in versions && f.entries[v].Number? && f.entries[v].n > 0.0)
  }

  /**
   * The shape every catalog entry has: limits for every version, and costs
   * that are metered as a pair or self-hosted as a pair, never mixed.
   */
  predicate WellFormedModel(m: ModelSpec)
  {
    && |m.versions| > 0
    && CoversVersions(m.contextWindow, m.versions)
    && CoversVersions(m.responseLimit, m.versions)
    && ((CoversVersions(m.inputCost, m.versions) && CoversVersions(m.outputCost, m.versions))
        || (m.inputCost == Scalar(SELF_HOSTED) && m.outputCost == Scalar(SELF_HOSTED)))
  }

  /** A field keyed by three versions, each with a positive number, covers them. */
  lemma ThreeVersionsCovered(a: string, b: string, c: string, x: real, y: real, z: real)
    requires x > 0.0 && y > 0.0 && z > 0.0
    ensures CoversVersions(PerVersion(map[a := Number(x), b := Number(y), c := Number(z)]), [a, b, c])
  {
  }

  /** A field keyed by four versions, each with a positive number, covers them. */
  lemma FourVersionsCovered(a: string, b: string, c: string, d: string, w: real, x: real, y: real, z: real)
    requires w > 0.0 && x > 0.0 && y > 0.0 && z > 0.0
    ensures CoversVersions(PerVersion(map[a := Number(w), b := Number(x), c := Number(y), d := Number(z)]), [a, b, c, d])
  {
  }

  lemma Gpt4WellFormed()
    ensures WellFormedModel(GPT_4)
  {
    FourVersionsCovered("4-Opus", "4-Onyx", "4O", "O1", 128000.0, 128000.0, 256000.0, 512000.0);
    FourVersionsCovered("4-Opus", "4-Onyx", "4O", "O1", 4096.0, 4096.0, 8192.0, 16384.0);
    FourVersionsCovered("4-Opus", "4-Onyx", "4O", "O1", 0.01, 0.015, 0.02, 0.025);
    FourVersionsCovered("4-Opus", "4-Onyx", "4O", "O1", 0.03, 0.045, 0.06, 0.075);
  }

  lemma ClaudeWellFormed()
    ensures WellFormedModel(CLAUDE)
  {
    FourVersionsCovered("3-Opus", "3-Sonnet", "3-Haiku", "3.5-Sonnet", 200000.0, 150000.0, 100000.0, 200000.0);
    FourVersionsCovered("3-Opus", "3-Sonnet", "3-Haiku", "3.5-Sonnet", 4096.0, 4096.0, 2048.0, 4096.0);
    FourVersionsCovered("3-Opus", "3-Sonnet", "3-Haiku", "3.5-Sonnet", 0.015, 0.003, 0.0015, 0.005);
    FourVersionsCovered("3-Opus", "3-Sonnet", "3-Haiku", "3.5-Sonnet", 0.075, 0.015, 0.007, 0.025);
  }

  lemma GeminiWellFormed()
    ensures WellFormedModel(GEMINI)
  {
    ThreeVersionsCovered("2.0-Ultra", "2.0-Pro", "1.5-Pro", 128000.0, 64000.0, 32000.0);
    ThreeVersionsCovered("2.0-Ultra", "2.0-Pro", "1.5-Pro", 8192.0, 4096.0, 2048.0);
    ThreeVersionsCovered("2.0-Ultra", "2.0-Pro", "1.5-Pro", 0.012, 0.003, 0.002);
    ThreeVersionsCovered("2.0-Ultra", "2.0-Pro", "1.5-Pro", 0.024, 0.006, 0.004);
  }

  lemma LlamaWellFormed()
    ensures WellFormedModel(LLAMA)
  {
    FourVersionsCovered("Llama-3.1-70b", "Llama-3.1-13b", "Llama-3.2-70b", "Llama-3.2-13b", 4096.0, 4096.0, 8192.0, 8192.0);
    FourVersionsCovered("Llama-3.1-70b", "Llama-3.1-13b", "Llama-3.2-70b", "Llama-3.2-13b", 2048.0, 2048.0, 4096.0, 4096.0);
  }

  lemma MistralWellFormed()
    ensures WellFormedModel(MISTRAL)
  {
    ThreeVersionsCovered("Large", "Medium", "Small", 32768.0, 32768.0, 32768.0);
    ThreeVersionsCovered("Large", "Medium", "Small", 2048.0, 2048.0, 2048.0);
    ThreeVersionsCovered("Large", "Medium", "Small", 0.007, 0.002, 0.0006);
    ThreeVersionsCovered("Large", "Medium", "Small", 0.021, 0.006, 0.0018);
  }

  /** A catalog of one family per provider is well formed when its five models are. */
  lemma FiveFamiliesWellFormed(p1: string, p2: string, p3: string, p4: string, p5: string,
                               f1: string, f2: string, f3: string, f4: string, f5: string,
                               m1: ModelSpec, m2: ModelSpec, m3: ModelSpec, m4: ModelSpec, m5: ModelSpec)
    requires WellFormedModel(m1) && WellFormedModel(m2) && WellFormedModel(m3)
    requires WellFormedModel(m4) && WellFormedModel(m5)
    ensures var catalog := map[p1 := map[f1 := m1], p2 := map[f2 := m2], p3 := map[f3 := m3],
                               p4 := map[f4 := m4], p5 := map[f5 := m5]];
      forall provider, family :: provider in catalog && family in catalog[provider] ==>
        WellFormedModel(catalog[provider][family])
  {
  }

  /** Every model of the shipped catalog is well formed. */
  lemma CatalogWellFormed()
    ensures forall provider, family :: provider in MODEL_DATA && family in MODEL_DATA[provider] ==>
      WellFormedModel(MODEL_DATA[provider][family])
  {
    Gpt4WellFormed();
    ClaudeWellFormed();
    GeminiWellFormed();
    LlamaWellFormed();
    MistralWellFormed();
    FiveFamiliesWellFormed("OpenAI", "Anthropic", "Google", "Meta", "Mistral",
                           "GPT-4", "Claude", "Gemini", "Llama", "Mistral",
                           GPT_4, CLAUDE, GEMINI, LLAMA, MISTRAL);
  }
}
