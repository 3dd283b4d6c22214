/** The admission and shaping policy. */
module Policy {
  import opened Base
  import opened Models

  const DEFAULT_MAX_TOKENS: u32 := 256
  const MAX_TOKENS_CAP: u32 := 4096

  datatype PolicyDecision = PolicyDecision(
    tier: Tier,
    maxTokens: u32,
    allowed: bool,
    denyReason: Option<string>)

  /**
    The engine holds the configured default tier and a cost ceiling. The
    ceiling is an inert hook: no cost is estimated, whatever its value.
   */
  datatype PolicyEngine = PolicyEngine(defaultTier: Tier, maxCostMicrousdc: u64) {

    /** `PolicyEngine::decide` */
    function Decide(requestedTier: Option<Tier>, maxTokens: Option<u32>): (d: PolicyDecision)
      ensures requestedTier.Some? ==> d.tier == requestedTier.value
      ensures requestedTier.None? ==> d.tier == defaultTier
      ensures d.maxTokens <= MAX_TOKENS_CAP
      ensures maxTokens.None? ==> d.maxTokens == DEFAULT_MAX_TOKENS
      ensures maxTokens.Some? && maxTokens.value <= MAX_TOKENS_CAP ==> d.maxTokens == maxTokens.value
      ensures maxTokens.Some? && maxTokens.value > MAX_TOKENS_CAP ==> d.maxTokens == MAX_TOKENS_CAP
      ensures d.allowed && d.denyReason.None?
    {
      var tier := requestedTier.GetOr(defaultTier);
      var requested := maxTokens.GetOr(DEFAULT_MAX_TOKENS);
      var capped := if requested < MAX_TOKENS_CAP then requested else MAX_TOKENS_CAP;
      // A positive maxCostMicrousdc is where a cost estimate would be checked; none is.
      PolicyDecision(tier, capped, true, None)
    }
  }

  /** The cost ceiling never influences the decision. */
  lemma CostCeilingInert(e1: PolicyEngine, e2: PolicyEngine, t: Option<Tier>, m: Option<u32>)
    requires e1.defaultTier == e2.defaultTier
    ensures e1.Decide(t, m) == e2.Decide(t, m)
  {
  }

  /** Shaping is idempotent: deciding again on a decision's own outputs reproduces it. */
  lemma DecideIdempotent(e: PolicyEngine, t: Option<Tier>, m: Option<u32>)
    ensures var d := e.Decide(t, m); e.Decide(Some(d.tier), Some(d.maxTokens)) == d
  {
  }

  /** Examples: the default budget, the cap, a pass-through and a zero budget, which passes unchanged. */
  lemma DecideExamples(e: PolicyEngine)
    ensures e.Decide(None, None) == PolicyDecision(e.defaultTier, 256, true, None)
    ensures e.Decide(Some(Pro), Some(10000)) == PolicyDecision(Pro, 4096, true, None)
    ensures e.Decide(Some(Nano), Some(10)) == PolicyDecision(Nano, 10, true, None)
    ensures e.Decide(Some(Max), Some(0)).maxTokens == 0
  {
  }
}
