/**
 * Per-skill utility facets: a constant table for the known skills, fallback
 * values and formulas for the others, token efficiency and the weighted
 * overall utility.
 */
module SkillUtility {
  import opened Wrappers
  import opened Text
  import SkillMetadata

  datatype Utility = Utility(
    frequencyOfNeed: real,
    tokenEfficiency: real,
    timeSavings: real,
    reliabilityScore: real,
    easeOfUse: real)

  predicate InUnit(x: real) {
    0.0 <= x <= 1.0
  }

  /** Every facet lies in [0, 1]. */
  predicate Bounded(u: Utility) {
    InUnit(u.frequencyOfNeed) && InUnit(u.tokenEfficiency) && InUnit(u.timeSavings)
    && InUnit(u.reliabilityScore) && InUnit(u.easeOfUse)
  }

  /** `max(0.0, min(1.0, x))`. */
  function Clamp(x: real): (r: real)
    ensures InUnit(r)
    ensures InUnit(x) ==> r == x
    ensures x < 0.0 ==> r == 0.0
    ensures x > 1.0 ==> r == 1.0
  {
    if x < 0.0 then 0.0 else if x > 1.0 then 1.0 else x
  }

  /** The base utilities of the known skills. */
  function BaseUtilities(): map<string, Utility> {
    map[
      "session-snapshot" := Utility(0.7, 0.9, 0.8, 0.95, 0.9),
      "skill-extractor" := Utility(0.5, 0.75, 0.85, 0.8, 0.7),
      "skill-recommendation-engine" := Utility(0.6, 0.8, 0.75, 0.85, 0.85),
      "claude-startup-integration" := Utility(0.4, 0.85, 0.7, 0.9, 0.8),
      "startup-skill-showcase" := Utility(0.3, 0.9, 0.6, 0.9, 0.95),
      "manifest-generator" := Utility(0.3, 0.85, 0.8, 0.85, 0.75),
      "lean-plan" := Utility(0.6, 0.95, 0.8, 0.85, 0.8),
      "quick-test-runner" := Utility(0.9, 0.9, 0.95, 0.9, 0.95),
      "refactoring" := Utility(0.5, 0.7, 0.85, 0.75, 0.7),
      "diff-summariser" := Utility(0.8, 0.95, 0.9, 0.95, 0.95),
      "migrate-repo" := Utility(0.2, 0.8, 0.9, 0.85, 0.75),
      "repo-briefing" := Utility(0.6, 0.85, 0.85, 0.9, 0.9),
      "api-contract-sniffer" := Utility(0.6, 0.9, 0.8, 0.85, 0.85),
      "dead-code-hunter" := Utility(0.5, 0.85, 0.85, 0.8, 0.85),
      "dependency-audit" := Utility(0.7, 0.9, 0.8, 0.9, 0.9),
      "ascii-sanitizer" := Utility(0.3, 0.85, 0.7, 0.9, 0.85),
      "anti-pattern-sniffer" := Utility(0.4, 0.8, 0.75, 0.8, 0.75),
      "lemma-dependency-graph" := Utility(0.4, 0.75, 0.8, 0.8, 0.7),
      "proof-obligations-snapshot" := Utility(0.5, 0.85, 0.8, 0.9, 0.85),
      "tactic-usage-count" := Utility(0.3, 0.9, 0.7, 0.85, 0.85),
      "quantum-circuit-optimizer" := Utility(0.3, 0.8, 0.85, 0.75, 0.7)]
  }

  /** The utility of a skill the table does not know. */
  function DefaultUtility(): Utility {
    Utility(0.5, 0.7, 0.6, 0.7, 0.7)
  }

  /** Every entry of the table has all its facets in [0, 1]. */
  lemma BaseUtilitiesBounded()
    ensures forall n :: n in BaseUtilities() ==> Bounded(BaseUtilities()[n])
  {
  }

  /** `get_utility_score`: the table entry, or the default for an unknown skill. */
  function GetUtilityScore(name: string): (u: Utility)
    ensures Bounded(u)
    ensures name in BaseUtilities() ==> u == BaseUtilities()[name]
    ensures name !in BaseUtilities() ==> u == Utility(0.5, 0.7, 0.6, 0.7, 0.7)
  {
    BaseUtilitiesBounded();
    if name in BaseUtilities() then BaseUtilities()[name] else DefaultUtility()
  }

  /**
   * `calculate_token_efficiency`: a given record's token estimate takes the
   * place of the `tokenEstimate` argument; efficiency falls linearly from 1 at
   * 0 tokens to 0 at 3000 tokens.
   */
  function TokenEfficiency(metadata: Option<SkillMetadata.Skill>, tokenEstimate: int): (r: real)
    ensures InUnit(r)
  {
    var tokens := if metadata.Some? then metadata.value.tokenEstimate else tokenEstimate;
    Clamp(1.0 - tokens as real / 3000.0)
  }

  /** The formula's documented points: 300 tokens give 0.9, 1500 give 0.5, 3000 or more give 0. */
  lemma TokenEfficiencyPoints(t: int)
    ensures TokenEfficiency(None, 300) == 0.9
    ensures TokenEfficiency(None, 1500) == 0.5
    ensures t >= 3000 ==> TokenEfficiency(None, t) == 0.0
    ensures t <= 0 ==> TokenEfficiency(None, t) == 1.0
    ensures 0 <= t <= 3000 ==> TokenEfficiency(None, t) == 1.0 - t as real / 3000.0
  {
  }

  /** More tokens never make a skill more efficient. */
  lemma TokenEfficiencyAntitone(a: int, b: int)
    requires a <= b
    ensures TokenEfficiency(None, a) >= TokenEfficiency(None, b)
  {
  }

  /** With a record present, the `tokenEstimate` argument has no effect. */
  lemma TokenEfficiencyUsesRecord(s: SkillMetadata.Skill, a: int, b: int)
    ensures TokenEfficiency(Some(s), a) == TokenEfficiency(Some(s), b)
    ensures TokenEfficiency(Some(s), a) == TokenEfficiency(None, s.tokenEstimate)
  {
  }

  /** The category adjustment of the time-savings fallback. */
  function CategoryBonus(category: string): real {
    if StartsWith(category, "meta") then 0.1
    else if category == "development" then 0.15
    else if category == "git" then 0.1
    else if StartsWith(category, "analysis") then 0.05
    else 0.0
  }

  /** The priority adjustment of the time-savings fallback. */
  function PriorityBonus(priority: string): real {
    if priority == "high" then 0.1
    else if priority == "low" then -0.1
    else 0.0
  }

  /** `estimate_time_savings`: the table's value, or 0.6 adjusted by category and priority. */
  function EstimateTimeSavings(name: string, category: string, priority: string): (r: real)
    ensures InUnit(r)
    ensures name in BaseUtilities() ==> r == BaseUtilities()[name].timeSavings
  {
    BaseUtilitiesBounded();
    if name in BaseUtilities() then BaseUtilities()[name].timeSavings
    else Clamp(0.6 + CategoryBonus(category) + PriorityBonus(priority))
  }

  /**
   * For an unknown skill the estimate lies between 0.5 and 0.85, so the clamp
   * never changes it; high priority always adds exactly 0.2 over low priority.
   */
  lemma TimeSavingsFallbackRange(name: string, category: string, priority: string)
    requires name !in BaseUtilities()
    ensures 0.5 <= EstimateTimeSavings(name, category, priority) <= 0.85
    ensures EstimateTimeSavings(name, category, priority) == 0.6 + CategoryBonus(category) + PriorityBonus(priority)
    ensures EstimateTimeSavings(name, category, "high") == EstimateTimeSavings(name, category, "low") + 0.2
    ensures EstimateTimeSavings(name, "development", "high") == 0.85
    ensures EstimateTimeSavings(name, "", "low") == 0.5
  {
    assert "development"[0] != "meta"[0];
    assert !StartsWith("development", "meta");
  }

  /** The weighted average of the five facets, weights 0.3, 0.2, 0.3, 0.1, 0.1. */
  function Weighted(u: Utility): real {
    u.frequencyOfNeed * 0.3 + u.tokenEfficiency * 0.2 + u.timeSavings * 0.3
    + u.reliabilityScore * 0.1 + u.easeOfUse * 0.1
  }

  /** The weights sum to 1, so a bounded utility has a weighted average in [0, 1]. */
  lemma WeightedInUnit(u: Utility)
    requires Bounded(u)
    ensures InUnit(Weighted(u))
    ensures Weighted(Utility(1.0, 1.0, 1.0, 1.0, 1.0)) == 1.0
    ensures Weighted(Utility(0.0, 0.0, 0.0, 0.0, 0.0)) == 0.0
  {
  }

  /** `calculate_overall_utility`. */
  function OverallUtility(name: string): (r: real)
    ensures InUnit(r)
    ensures name !in BaseUtilities() ==> r == 0.61
  {
    WeightedInUnit(GetUtilityScore(name));
    Weighted(GetUtilityScore(name))
  }
}
