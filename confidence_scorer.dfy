/**
 * The confidence scorer: four weighted sub-scores (context 40, user 30,
 * project 20, reliability 10), each analysis capped at 1, the total clamped to
 * [0, 100], and the bucket a confidence falls in.
 */
module ConfidenceScorer {
  import opened Wrappers
  import opened Text
  import SkillMetadata
  import ContextAnalyzer
  import ProjectAnalyzer
  import UserPatterns
  import SkillUtility

  function Min(a: real, b: real): real {
    if a <= b then a else b
  }

  /** The activity part of the context relevance. */
  function ActivityBonus(name: string, activity: string): real {
    if activity == "coding" then
      (if name in ["quick-test-runner", "diff-summariser", "api-contract-sniffer"] then 0.3 else 0.0)
    else if activity == "refactoring" then
      (if name in ["dead-code-hunter", "refactoring", "dependency-audit"] then 0.3 else 0.0)
    else if activity == "testing" then
      (if name == "quick-test-runner" then 0.4 else 0.0)
    else 0.0
  }

  /** The file-type part: Coq sources first, then quantum circuits, then Python or JavaScript. */
  function FileTypeBonus(name: string, category: string, fileTypes: set<string>): real {
    if ".v" in fileTypes then
      (if category == "analysis/formal" then 0.3 else 0.0)
    else if ".qasm" in fileTypes || ".qpy" in fileTypes then
      (if name == "quantum-circuit-optimizer" then 0.4 else 0.0)
    else if ".py" in fileTypes || ".js" in fileTypes || ".ts" in fileTypes then
      (if name in ["api-contract-sniffer", "dead-code-hunter", "dependency-audit"] then 0.2 else 0.0)
    else 0.0
  }

  /** The low-budget part: under 50000 tokens the cheap skills gain. */
  function BudgetBonus(name: string, tokenBudget: int): real {
    if tokenBudget < 50000 && name in ["lean-plan", "dependency-audit", "diff-summariser"] then 0.2 else 0.0
  }

  /** The project-type part. */
  function ProjectTypeBonus(name: string, category: string, projectType: string): real {
    if projectType == "formal_verification" then
      (if category == "analysis/formal" then 0.2 else 0.0)
    else if projectType == "quantum" then
      (if name == "quantum-circuit-optimizer" then 0.3 else 0.0)
    else if projectType in ["web", "python", "javascript"] then
      (if name in ["quick-test-runner", "api-contract-sniffer", "dependency-audit"] then 0.1 else 0.0)
    else 0.0
  }

  /** `analyze_context_relevance`. */
  function ContextRelevance(skill: SkillMetadata.Skill, c: ContextAnalyzer.ContextAnalysis): (r: real)
    ensures 0.0 <= r <= 1.0
  {
    Min(1.0, ActivityBonus(skill.name, c.currentActivity)
      + FileTypeBonus(skill.name, skill.category, c.fileTypes)
      + BudgetBonus(skill.name, c.tokenBudgetRemaining)
      + ProjectTypeBonus(skill.name, skill.category, c.projectType))
  }

  /**
   * The file-type rules exclude each other in priority order: once a `.v` file
   * is present no other type matters, and once a quantum file is present the
   * Python and JavaScript types do not.
   */
  lemma FileTypePriority(name: string, category: string, ft: set<string>)
    ensures ".v" in ft ==> FileTypeBonus(name, category, ft) == FileTypeBonus(name, category, {".v"})
    ensures ".v" !in ft && ".qasm" in ft ==> FileTypeBonus(name, category, ft) == FileTypeBonus(name, category, {".qasm"})
    ensures ".v" in ft ==> FileTypeBonus("quantum-circuit-optimizer", "analysis/quantum", ft) == 0.0
  {
  }

  /** A skill gains nothing from file types or project type unless it is one the rules name. */
  lemma ContextRelevanceUnnamed(skill: SkillMetadata.Skill, c: ContextAnalyzer.ContextAnalysis)
    requires skill.name !in {"quick-test-runner", "diff-summariser", "api-contract-sniffer", "dead-code-hunter",
      "refactoring", "dependency-audit", "lean-plan", "quantum-circuit-optimizer"}
    requires skill.category != "analysis/formal"
    ensures ContextRelevance(skill, c) == 0.0
  {
  }

  /** The domain of a category: the part before the first `/`. */
  function Domain(category: string): (r: string)
    ensures '/' !in r && StartsWith(category, r)
    ensures |r| < |category| ==> category[|r|] == '/'
    ensures '/' !in category ==> r == category
  {
    var parts := Split(category, '/');
    SplitFirst(category, '/');
    parts[0]
  }

  /** The first part of a split is the prefix before the first separator. */
  lemma SplitFirst(s: string, sep: char)
    ensures StartsWith(s, Split(s, sep)[0])
    ensures |Split(s, sep)[0]| < |s| ==> s[|Split(s, sep)[0]|] == sep
  {
    if sep in s {
      var i := IndexOf(s, sep);
      assert Split(s, sep)[0] == s[..i];
    }
  }

  /** The complexity part of the user alignment. */
  function ComplexityBonus(name: string, category: string, priority: string, tolerance: string): real {
    if tolerance == "low" then
      (if priority == "high" && name in ["quick-test-runner", "diff-summariser", "dependency-audit"] then 0.1 else 0.0)
    else if tolerance == "high" then
      (if StartsWith(category, "analysis/") then 0.1 else 0.0)
    else 0.0
  }

  /** `analyze_user_alignment`. */
  function UserAlignment(skill: SkillMetadata.Skill, p: UserPatterns.Preferences): real {
    if skill.name in p.avoided then 0.0
    else
      var preferred := if skill.name in p.preferred then 0.4 else 0.0;
      var rate := if skill.name in p.successRates then p.successRates[skill.name] * 0.3 else 0.0;
      var domain := if Domain(skill.category) in p.domainExpertise then 0.2 else 0.0;
      Min(1.0, preferred + rate + domain + ComplexityBonus(skill.name, skill.category, skill.priority, p.complexityTolerance))
  }

  /**
   * Avoidance zeroes the alignment even for a preferred skill; with valid
   * preferences the alignment lies in [0, 1]; a preferred skill scores at least
   * 0.4 and a matching domain adds 0.2.
   */
  lemma UserAlignmentFacts(skill: SkillMetadata.Skill, p: UserPatterns.Preferences)
    requires UserPatterns.ValidPreferences(p)
    ensures skill.name in p.avoided ==> UserAlignment(skill, p) == 0.0
    ensures 0.0 <= UserAlignment(skill, p) <= 1.0
    ensures skill.name !in p.avoided && skill.name in p.preferred ==> UserAlignment(skill, p) >= 0.4
    ensures (skill.name !in p.avoided && skill.name !in p.preferred && skill.name !in p.successRates
             && p.complexityTolerance == "medium") ==>
              UserAlignment(skill, p) == (if Domain(skill.category) in p.domainExpertise then 0.2 else 0.0)
  {
  }

  /** The dependency part of the project fit. */
  function DependencyBonus(name: string, deps: int): real {
    if deps > 50 then (if name == "dependency-audit" then 0.4 else 0.0)
    else if deps > 20 then (if name == "dependency-audit" then 0.2 else 0.0)
    else 0.0
  }

  /** `analyze_project_fit`. */
  function ProjectFit(skill: SkillMetadata.Skill, s: ProjectAnalyzer.ProjectState): (r: real)
    ensures 0.0 <= r <= 1.0
  {
    var name := skill.name;
    var age := if s.repositoryAgeDays > 365 && name in ["dead-code-hunter", "dependency-audit", "refactoring"] then 0.4 else 0.0;
    var coverage := if s.testCoverageEstimate == "low" && name == "quick-test-runner" then 0.3 else 0.0;
    var docs := if s.documentationQuality == "poor" && name in ["repo-briefing", "session-snapshot"] then 0.3 else 0.0;
    var large := if s.complexityIndicators.largeFiles > 5 && name in ["refactoring", "dead-code-hunter"] then 0.3 else 0.0;
    Min(1.0, age + coverage + DependencyBonus(name, s.dependencyCount) + docs + large)
  }

  /** Only `dependency-audit` gains from many dependencies: 0.4 above 50, 0.2 above 20. */
  lemma DependencyBonusRule(name: string, deps: int)
    ensures name != "dependency-audit" ==> DependencyBonus(name, deps) == 0.0
    ensures DependencyBonus("dependency-audit", deps) == (if deps > 50 then 0.4 else if deps > 20 then 0.2 else 0.0)
  {
  }

  /** Project fit never decreases as the dependency count grows. */
  lemma ProjectFitDependencyMonotone(skill: SkillMetadata.Skill, s: ProjectAnalyzer.ProjectState, more: nat)
    requires s.dependencyCount <= more
    ensures ProjectFit(skill, s) <= ProjectFit(skill, s.(dependencyCount := more))
  {
  }

  /** `calculate_confidence`; the three optional inputs are `None` when absent. */
  function Confidence(skill: SkillMetadata.Skill, c: ContextAnalyzer.ContextAnalysis, state: Option<ProjectAnalyzer.ProjectState>,
                      prefs: Option<UserPatterns.Preferences>, utility: Option<SkillUtility.Utility>): (r: real)
    ensures 0.0 <= r <= 100.0
  {
    var contextScore := ContextRelevance(skill, c) * 40.0;
    var patternScore := if prefs.Some? then UserAlignment(skill, prefs.value) * 30.0 else 0.0;
    var stateScore := if state.Some? then ProjectFit(skill, state.value) * 20.0 else 0.0;
    var successScore := if utility.Some? then utility.value.reliabilityScore * 10.0 else 0.0;
    var total := contextScore + patternScore + stateScore + successScore;
    Min(100.0, if total < 0.0 then 0.0 else total)
  }

  /** With none of the optional inputs only the context counts, so the score is at most 40. */
  lemma ConfidenceContextOnly(skill: SkillMetadata.Skill, c: ContextAnalyzer.ContextAnalysis)
    ensures Confidence(skill, c, None, None, None) == ContextRelevance(skill, c) * 40.0
    ensures Confidence(skill, c, None, None, None) <= 40.0
  {
  }

  /**
   * With valid preferences and a bounded utility the four parts never leave
   * [0, 100], so the clamp changes nothing and the score is their exact sum;
   * an avoided skill keeps its context, project and reliability parts.
   */
  lemma ConfidenceDecomposes(skill: SkillMetadata.Skill, c: ContextAnalyzer.ContextAnalysis, state: ProjectAnalyzer.ProjectState,
                             p: UserPatterns.Preferences, u: SkillUtility.Utility)
    requires UserPatterns.ValidPreferences(p) && SkillUtility.Bounded(u)
    ensures Confidence(skill, c, Some(state), Some(p), Some(u))
      == ContextRelevance(skill, c) * 40.0 + UserAlignment(skill, p) * 30.0 + ProjectFit(skill, state) * 20.0
         + u.reliabilityScore * 10.0
    ensures skill.name in p.avoided ==>
              Confidence(skill, c, Some(state), Some(p), Some(u))
              == ContextRelevance(skill, c) * 40.0 + ProjectFit(skill, state) * 20.0 + u.reliabilityScore * 10.0
  {
    UserAlignmentFacts(skill, p);
  }

  const ImmediateNeeds: string := "\U{1F3AF} Immediate Needs"
  const QuickWins: string := "\U{26A1} Quick Wins"
  const InvestigationWorthy: string := "\U{1F50D} Investigation Worthy"
  const FutureConsiderations: string := "\U{1F4C8} Future Considerations"
  const LowPriority: string := "\U{1F4A1} Low Priority"

  /** `get_confidence_category`. */
  function ConfidenceCategory(confidence: real): (r: string)
    ensures r in [ImmediateNeeds, QuickWins, InvestigationWorthy, FutureConsiderations, LowPriority]
  {
    if confidence >= 90.0 then ImmediateNeeds
    else if confidence >= 80.0 then QuickWins
    else if confidence >= 70.0 then InvestigationWorthy
    else if confidence >= 60.0 then FutureConsiderations
    else LowPriority
  }

  /** The rank of a bucket, from Low Priority (0) to Immediate Needs (4). */
  function Rank(category: string): nat {
    if category == ImmediateNeeds then 4
    else if category == QuickWins then 3
    else if category == InvestigationWorthy then 2
    else if category == FutureConsiderations then 1
    else 0
  }

  /**
   * The buckets are the ten-point bands from 60 up, with everything below 60
   * in the lowest; a higher confidence never lands in a lower bucket.
   */
  lemma ConfidenceCategoryBands(a: real, b: real)
    requires a <= b
    ensures Rank(ConfidenceCategory(a)) <= Rank(ConfidenceCategory(b))
    ensures Rank(ConfidenceCategory(a)) == 0 <==> a < 60.0
    ensures Rank(ConfidenceCategory(a)) == 4 <==> a >= 90.0
    ensures var k := Rank(ConfidenceCategory(a)) as real;
      0.0 < k < 4.0 ==> 50.0 + 10.0 * k <= a < 60.0 + 10.0 * k
  {
  }
}
