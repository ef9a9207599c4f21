/**
 * The orchestrator: scores every catalog skill against one context, project
 * state and set of preferences, keeps those that pass the filters and the
 * threshold, sorts them by confidence (highest first, ties in catalog order),
 * truncates, explains each choice and summarises the result.
 */
module Recommender {
  import opened Wrappers
  import opened Text
  import opened Sorting
  import SkillMetadata
  import ContextAnalyzer
  import ProjectAnalyzer
  import UserPatterns
  import SkillUtility
  import ConfidenceScorer

  /** `Recommendation`, after `__post_init__` has run. */
  datatype Recommendation = Recommendation(
    skill: SkillMetadata.Skill,
    confidence: real,
    context: ContextAnalyzer.ContextAnalysis,
    reasoning: string,
    category: string)

  /** `Recommendation(...)`: an empty category is filled in from the confidence bucket. */
  function MakeRecommendation(skill: SkillMetadata.Skill, confidence: real, context: ContextAnalyzer.ContextAnalysis,
                              reasoning: string, category: string): (r: Recommendation)
    ensures r.skill == skill && r.confidence == confidence && r.context == context && r.reasoning == reasoning
    ensures category != "" ==> r.category == category
  {
    Recommendation(skill, confidence, context, reasoning,
      if category == "" then ConfidenceScorer.ConfidenceCategory(confidence) else category)
  }

  /**
   * The bucket is derived only for an empty category, and derivation is stable:
   * building a recommendation again from a built one changes nothing.
   */
  lemma MakeRecommendationBucket(skill: SkillMetadata.Skill, confidence: real, context: ContextAnalyzer.ContextAnalysis,
                                 reasoning: string, category: string)
    ensures category == "" ==>
              MakeRecommendation(skill, confidence, context, reasoning, category).category
              == ConfidenceScorer.ConfidenceCategory(confidence)
    ensures var r := MakeRecommendation(skill, confidence, context, reasoning, category);
      MakeRecommendation(r.skill, r.confidence, r.context, r.reasoning, r.category) == r
  {
    var c := ConfidenceScorer.ConfidenceCategory(confidence);
    assert c != "";
  }

  /** The `filters` argument: the `category` and `priority` keys, each possibly absent. */
  datatype Filters = Filters(category: Option<string>, priority: Option<string>)

  function NoFilters(): Filters {
    Filters(None, None)
  }

  /** The filters are exact comparisons. */
  predicate PassesFilters(s: SkillMetadata.Skill, f: Filters) {
    (f.category.None? || s.category == f.category.value)
    && (f.priority.None? || s.priority == f.priority.value)
  }

  /**
   * Unlike the catalog's category filter, the orchestrator's filter is exact:
   * a skill below "analysis" is found by the one and excluded by the other.
   */
  lemma CategoryFilterIsExact(s: SkillMetadata.Skill)
    requires s.category == "analysis/code"
    ensures SkillMetadata.InCategory(s, "analysis")
    ensures !PassesFilters(s, Filters(Some("analysis"), None))
  {
    assert s.category[..|"analysis/"|] == "analysis/";
  }

  /** The confidence `recommend` computes for one skill: every input is shared, the utility is the skill's own. */
  function Score(s: SkillMetadata.Skill, c: ContextAnalyzer.ContextAnalysis, state: ProjectAnalyzer.ProjectState,
                 prefs: UserPatterns.Preferences): real {
    ConfidenceScorer.Confidence(s, c, Some(state), Some(prefs), Some(SkillUtility.GetUtilityScore(s.name)))
  }

  /** The recommendation `recommend` builds for a skill that qualifies. */
  function Recommend1(s: SkillMetadata.Skill, c: ContextAnalyzer.ContextAnalysis, state: ProjectAnalyzer.ProjectState,
                      prefs: UserPatterns.Preferences): Recommendation {
    var confidence := Score(s, c, state, prefs);
    MakeRecommendation(s, confidence, c, Reasoning(s, c, state), "")
  }

  predicate Qualifies(s: SkillMetadata.Skill, c: ContextAnalyzer.ContextAnalysis, state: ProjectAnalyzer.ProjectState,
                      prefs: UserPatterns.Preferences, filters: Filters, minConfidence: real) {
    PassesFilters(s, filters) && Score(s, c, state, prefs) >= minConfidence
  }

  /** The recommendations of the qualifying skills, in catalog order, before sorting. */
  function Candidates(skills: seq<SkillMetadata.Skill>, c: ContextAnalyzer.ContextAnalysis, state: ProjectAnalyzer.ProjectState,
                      prefs: UserPatterns.Preferences, filters: Filters, minConfidence: real): (r: seq<Recommendation>)
    ensures |r| <= |skills|
  {
    if |skills| == 0 then []
    else
      var s := skills[|skills| - 1];
      var last := if Qualifies(s, c, state, prefs, filters, minConfidence) then [Recommend1(s, c, state, prefs)] else [];
      Candidates(skills[..|skills| - 1], c, state, prefs, filters, minConfidence) + last
  }

  /** A candidate is exactly the recommendation of a catalog skill that passes the filters and the threshold. */
  lemma {:induction false} CandidatesExactly(skills: seq<SkillMetadata.Skill>, c: ContextAnalyzer.ContextAnalysis,
                                             state: ProjectAnalyzer.ProjectState, prefs: UserPatterns.Preferences,
                                             filters: Filters, minConfidence: real)
    ensures forall r :: r in Candidates(skills, c, state, prefs, filters, minConfidence) <==>
      exists s :: s in skills && Qualifies(s, c, state, prefs, filters, minConfidence) && r == Recommend1(s, c, state, prefs)
    decreases |skills|
  {
    if |skills| > 0 {
      var init := skills[..|skills| - 1];
      CandidatesExactly(init, c, state, prefs, filters, minConfidence);
      assert skills == init + [skills[|skills| - 1]];
    }
  }

  function ConfidenceOf(r: Recommendation): real {
    r.confidence
  }

  /** Python's `s[:n]`, where a negative `n` counts from the end. */
  function Take<T>(s: seq<T>, n: int): (r: seq<T>)
    ensures |r| <= |s| && r == s[..|r|]
    ensures n >= 0 ==> |r| == if n < |s| then n else |s|
    ensures n < 0 ==> |r| == if |s| + n > 0 then |s| + n else 0
  {
    if n >= 0 then (if n < |s| then s[..n] else s)
    else if |s| + n > 0 then s[..|s| + n] else []
  }

  lemma CandidatesStep(skills: seq<SkillMetadata.Skill>, c: ContextAnalyzer.ContextAnalysis, state: ProjectAnalyzer.ProjectState,
                       prefs: UserPatterns.Preferences, filters: Filters, minConfidence: real, i: nat)
    requires i < |skills|
    ensures Candidates(skills[..i + 1], c, state, prefs, filters, minConfidence)
      == Candidates(skills[..i], c, state, prefs, filters, minConfidence)
      + (if Qualifies(skills[i], c, state, prefs, filters, minConfidence) then [Recommend1(skills[i], c, state, prefs)] else [])
  {
    assert skills[..i + 1][..i] == skills[..i];
  }

  /** What `recommend` returns for the given inputs. */
  function Recommendations(skills: seq<SkillMetadata.Skill>, c: ContextAnalyzer.ContextAnalysis, state: ProjectAnalyzer.ProjectState,
                           prefs: UserPatterns.Preferences, topN: int, minConfidence: real, filters: Filters): seq<Recommendation> {
    Take(SortDescending(Candidates(skills, c, state, prefs, filters, minConfidence), ConfidenceOf), topN)
  }

  /**
   * `recommend`, with the catalog, the context, the project state and the
   * preferences it gathers once passed in and shared by every skill.
   */
  method Recommend(skills: seq<SkillMetadata.Skill>, c: ContextAnalyzer.ContextAnalysis, state: ProjectAnalyzer.ProjectState,
                   prefs: UserPatterns.Preferences, topN: int, minConfidence: real, filters: Filters)
    returns (result: seq<Recommendation>)
    ensures result == Recommendations(skills, c, state, prefs, topN, minConfidence, filters)
  {
    var recommendations: seq<Recommendation> := [];
    for i := 0 to |skills|
      invariant recommendations == Candidates(skills[..i], c, state, prefs, filters, minConfidence)
    {
      var skill := skills[i];
      CandidatesStep(skills, c, state, prefs, filters, minConfidence, i);
      if PassesFilters(skill, filters) {
        var utility := SkillUtility.GetUtilityScore(skill.name);
        var confidence := ConfidenceScorer.Confidence(skill, c, Some(state), Some(prefs), Some(utility));
        if confidence >= minConfidence {
          var reasoning := Reasoning(skill, c, state);
          recommendations := recommendations + [MakeRecommendation(skill, confidence, c, reasoning, "")];
        }
      }
    }
    assert skills[..|skills|] == skills;
    result := Take(SortDescending(recommendations, ConfidenceOf), topN);
  }

  /** The items with value `c` in a prefix form a prefix of the items with value `c` in the whole. */
  lemma {:induction false} WithValuePrefix<T>(s: seq<T>, k: nat, key: T -> real, c: real)
    requires k <= |s|
    ensures var p := WithValue(s[..k], key, c);
      |p| <= |WithValue(s, key, c)| && p == WithValue(s, key, c)[..|p|]
    decreases k
  {
    if k > 0 {
      WithValuePrefix(s[1..], k - 1, key, c);
      assert s[..k][1..] == s[1..][..k - 1];
    }
  }

  /**
   * What `recommend` promises: no more than `top_n` entries (for a non-negative
   * `top_n`), each from the catalog, passing the filters, at or above the
   * threshold, bucketed by its confidence and built on the shared context; the
   * entries are in non-increasing confidence order, those of equal confidence in
   * catalog order; and no qualifying skill left out scores above one kept.
   */
  lemma RecommendationsFacts(skills: seq<SkillMetadata.Skill>, c: ContextAnalyzer.ContextAnalysis, state: ProjectAnalyzer.ProjectState,
                             prefs: UserPatterns.Preferences, topN: int, minConfidence: real, filters: Filters)
    ensures var r := Recommendations(skills, c, state, prefs, topN, minConfidence, filters);
      var all := SortDescending(Candidates(skills, c, state, prefs, filters, minConfidence), ConfidenceOf);
      && (topN >= 0 ==> |r| <= topN)
      && (forall i :: 0 <= i < |r| ==>
            && r[i].skill in skills
            && PassesFilters(r[i].skill, filters)
            && r[i].confidence >= minConfidence
            && r[i].category == ConfidenceScorer.ConfidenceCategory(r[i].confidence)
            && r[i].context == c)
      && SortedDescending(r, ConfidenceOf)
      && (forall v :: var same := WithValue(r, ConfidenceOf, v);
            var whole := WithValue(Candidates(skills, c, state, prefs, filters, minConfidence), ConfidenceOf, v);
            |same| <= |whole| && same == whole[..|same|])
      && (forall i, j :: 0 <= i < |r| <= j < |all| ==> all[j].confidence <= r[i].confidence)
      && multiset(all) == multiset(Candidates(skills, c, state, prefs, filters, minConfidence))
  {
    RecommendationsMembers(skills, c, state, prefs, topN, minConfidence, filters);
    RecommendationsOrder(skills, c, state, prefs, topN, minConfidence, filters);
    RecommendationsStable(skills, c, state, prefs, topN, minConfidence, filters);
  }

  /** Each entry comes from a catalog skill that qualifies, and carries its bucket and the shared context. */
  lemma RecommendationsMembers(skills: seq<SkillMetadata.Skill>, c: ContextAnalyzer.ContextAnalysis, state: ProjectAnalyzer.ProjectState,
                                prefs: UserPatterns.Preferences, topN: int, minConfidence: real, filters: Filters)
    ensures var r := Recommendations(skills, c, state, prefs, topN, minConfidence, filters);
      forall i :: 0 <= i < |r| ==>
        && r[i].skill in skills
        && PassesFilters(r[i].skill, filters)
        && r[i].confidence >= minConfidence
        && r[i].category == ConfidenceScorer.ConfidenceCategory(r[i].confidence)
        && r[i].context == c
  {
    var cands := Candidates(skills, c, state, prefs, filters, minConfidence);
    var all := SortDescending(cands, ConfidenceOf);
    var r := Take(all, topN);
    SortDescendingPermutes(cands, ConfidenceOf);
    CandidatesExactly(skills, c, state, prefs, filters, minConfidence);
    forall i | 0 <= i < |r|
      ensures r[i].skill in skills && PassesFilters(r[i].skill, filters) && r[i].confidence >= minConfidence
      ensures r[i].category == ConfidenceScorer.ConfidenceCategory(r[i].confidence) && r[i].context == c
    {
      assert r[i] == all[i];
      assert all[i] in multiset(cands);
      assert all[i] in cands;
      var s :| s in skills && Qualifies(s, c, state, prefs, filters, minConfidence) && r[i] == Recommend1(s, c, state, prefs);
    }
  }

  /** The entries are the highest-confidence prefix of the sorted candidates, which are a permutation of the candidates. */
  lemma RecommendationsOrder(skills: seq<SkillMetadata.Skill>, c: ContextAnalyzer.ContextAnalysis, state: ProjectAnalyzer.ProjectState,
                                prefs: UserPatterns.Preferences, topN: int, minConfidence: real, filters: Filters)
    ensures var r := Recommendations(skills, c, state, prefs, topN, minConfidence, filters);
      var all := SortDescending(Candidates(skills, c, state, prefs, filters, minConfidence), ConfidenceOf);
      && (topN >= 0 ==> |r| <= topN)
      && SortedDescending(r, ConfidenceOf)
      && (forall i, j :: 0 <= i < |r| <= j < |all| ==> all[j].confidence <= r[i].confidence)
      && multiset(all) == multiset(Candidates(skills, c, state, prefs, filters, minConfidence))
  {
    var cands := Candidates(skills, c, state, prefs, filters, minConfidence);
    var all := SortDescending(cands, ConfidenceOf);
    var r := Take(all, topN);
    SortDescendingPermutes(cands, ConfidenceOf);
    SortDescendingSorted(cands, ConfidenceOf);
    assert forall i :: 0 <= i < |r| ==> r[i] == all[i];
  }

  /** Entries of equal confidence keep their catalog order. */
  lemma RecommendationsStable(skills: seq<SkillMetadata.Skill>, c: ContextAnalyzer.ContextAnalysis, state: ProjectAnalyzer.ProjectState,
                                prefs: UserPatterns.Preferences, topN: int, minConfidence: real, filters: Filters)
    ensures var r := Recommendations(skills, c, state, prefs, topN, minConfidence, filters);
      forall v :: var same := WithValue(r, ConfidenceOf, v);
        var whole := WithValue(Candidates(skills, c, state, prefs, filters, minConfidence), ConfidenceOf, v);
        |same| <= |whole| && same == whole[..|same|]
  {
    var cands := Candidates(skills, c, state, prefs, filters, minConfidence);
    var all := SortDescending(cands, ConfidenceOf);
    var r := Take(all, topN);
    forall v
      ensures var same := WithValue(r, ConfidenceOf, v);
        |same| <= |WithValue(cands, ConfidenceOf, v)| && same == WithValue(cands, ConfidenceOf, v)[..|same|]
    {
      SortDescendingStable(cands, ConfidenceOf, v);
      WithValuePrefix(all, |r|, ConfidenceOf, v);
      assert all[..|r|] == r;
    }
  }

  /** `sorted(file_types)[:3]`: the shown extensions. */
  function ShownTypes(fileTypes: set<string>): (r: seq<string>)
    ensures |r| <= 3
    ensures forall t :: t in r ==> t in fileTypes
  {
    Take(SortedOf(fileTypes), 3)
  }

  /** The shown extensions are the smallest ones, in order, and all of them when there are at most three. */
  lemma ShownTypesSmallest(fileTypes: set<string>)
    ensures var r := ShownTypes(fileTypes);
      && (forall i, j :: 0 <= i < j < |r| ==> StrLess(r[i], r[j]))
      && (forall t, i :: t in fileTypes && t !in r && 0 <= i < |r| ==> StrLess(r[i], t))
      && (|fileTypes| <= 3 ==> forall t :: t in fileTypes ==> t in r)
  {
    var all := SortedOf(fileTypes);
    var r := ShownTypes(fileTypes);
    forall t, i | t in fileTypes && t !in r && 0 <= i < |r|
      ensures StrLess(r[i], t)
    {
      var j :| 0 <= j < |all| && all[j] == t;
      assert r == all[..|r|];
      assert j >= |r|;
      assert r[i] == all[i];
    }
  }

  const WorkingWith: string := "Working with "
  const MatureProject: string := "Mature project ("
  const YearsOld: string := "+ years old)"
  const LowCoverage: string := "Low test coverage detected"
  const ManyDependencies: string := "Many dependencies ("
  const ValidateQuickly: string := "Validate changes quickly"
  const ReviewChanges: string := "Review changes before committing"
  const UnusedCode: string := "Old codebase likely has unused code"
  const ReviewDependencies: string := "Review dependency health"
  const Currently: string := "Currently "

  /** `f"{count} file{'s' if count != 1 else ''} modified"`. */
  function ModifiedReason(count: nat): string {
    NatToString(count) + " file" + (if count != 1 then "s" else "") + " modified"
  }

  /** None of the strings is empty or starts with "C". */
  predicate NoneStartsWithC(xs: seq<string>) {
    forall i :: 0 <= i < |xs| ==> |xs[i]| > 0 && xs[i][0] != 'C'
  }

  /** The file-type reason. */
  function TypesReason(fileTypes: set<string>): (r: seq<string>)
    ensures |r| <= 1 && NoneStartsWithC(r)
  {
    if fileTypes != {} then [WorkingWith + Join(ShownTypes(fileTypes), ", ") + " files"] else []
  }

  /** The modified-files reason. */
  function ChangesReason(modified: seq<string>): (r: seq<string>)
    ensures |r| <= 1 && NoneStartsWithC(r)
  {
    if |modified| > 0 then
      var text := ModifiedReason(|modified|);
      assert text[0] == NatToString(|modified|)[0];
      [text]
    else []
  }

  /** The project-state reasons: age, coverage, dependencies. */
  function StateReasons(state: ProjectAnalyzer.ProjectState): (r: seq<string>)
    ensures |r| <= 3 && NoneStartsWithC(r)
  {
    var age := if state.repositoryAgeDays > 365 then
      [MatureProject + NatToString(state.repositoryAgeDays / 365) + YearsOld] else [];
    var coverage := if state.testCoverageEstimate == "low" then [LowCoverage] else [];
    var deps := if state.dependencyCount > 50 then [ManyDependencies + NatToString(state.dependencyCount) + ")"] else [];
    age + coverage + deps
  }

  /** The one skill-specific reason, if any. */
  function SpecificReason(skill: SkillMetadata.Skill, c: ContextAnalyzer.ContextAnalysis, state: ProjectAnalyzer.ProjectState)
    : (r: seq<string>)
    ensures |r| <= 1 && NoneStartsWithC(r)
  {
    if skill.name == "quick-test-runner" && c.currentActivity == "coding" then [ValidateQuickly]
    else if skill.name == "diff-summariser" && |c.recentChanges.modified| > 0 then [ReviewChanges]
    else if skill.name == "dead-code-hunter" && state.repositoryAgeDays > 365 then [UnusedCode]
    else if skill.name == "dependency-audit" && state.dependencyCount > 20 then [ReviewDependencies]
    else []
  }

  /** The reasons after the activity one, in order. */
  function OtherReasons(skill: SkillMetadata.Skill, c: ContextAnalyzer.ContextAnalysis, state: ProjectAnalyzer.ProjectState)
    : (r: seq<string>)
    ensures |r| <= 6 && NoneStartsWithC(r)
  {
    var a := TypesReason(c.fileTypes);
    var b := ChangesReason(c.recentChanges.modified);
    var d := StateReasons(state);
    var e := SpecificReason(skill, c, state);
    assert NoneStartsWithC(a + b) by {
      assert forall i :: 0 <= i < |a + b| ==> (a + b)[i] == if i < |a| then a[i] else b[i - |a|];
    }
    assert NoneStartsWithC(a + b + d) by {
      assert forall i :: 0 <= i < |a + b + d| ==> (a + b + d)[i] == if i < |a + b| then (a + b)[i] else d[i - |a + b|];
    }
    assert forall i :: 0 <= i < |a + b + d + e| ==>
      (a + b + d + e)[i] == if i < |a + b + d| then (a + b + d)[i] else e[i - |a + b + d|];
    a + b + d + e
  }

  /** The reasons `_generate_reasoning` finds, in order, before capping. */
  function Reasons(skill: SkillMetadata.Skill, c: ContextAnalyzer.ContextAnalysis, state: ProjectAnalyzer.ProjectState): (r: seq<string>)
    ensures |r| <= 7
  {
    var activity := if c.currentActivity != "" && c.currentActivity != "exploring" then [Currently + c.currentActivity] else [];
    activity + OtherReasons(skill, c, state)
  }

  /** The reasons that are joined: the skill's description when none apply, and at most four. */
  function ShownReasons(skill: SkillMetadata.Skill, c: ContextAnalyzer.ContextAnalysis, state: ProjectAnalyzer.ProjectState): (r: seq<string>)
    ensures 1 <= |r| <= 4
  {
    var reasons := Reasons(skill, c, state);
    if reasons == [] then [skill.description] else Take(reasons, 4)
  }

  /** `_generate_reasoning`. */
  function Reasoning(skill: SkillMetadata.Skill, c: ContextAnalyzer.ContextAnalysis, state: ProjectAnalyzer.ProjectState): string {
    Join(ShownReasons(skill, c, state), " - ")
  }

  /**
   * The reasoning joins the first four reasons; with none it is the skill's
   * description; an exploring session never shows up as a reason.
   */
  lemma ReasoningFacts(skill: SkillMetadata.Skill, c: ContextAnalyzer.ContextAnalysis, state: ProjectAnalyzer.ProjectState)
    ensures Reasons(skill, c, state) == [] ==> Reasoning(skill, c, state) == skill.description
    ensures |Reasons(skill, c, state)| > 0 ==>
              ShownReasons(skill, c, state) == Reasons(skill, c, state)[..|ShownReasons(skill, c, state)|]
    ensures Currently + "exploring" !in Reasons(skill, c, state)
  {
    ExploringNeverShown(skill, c, state);
  }

  /** "Currently exploring" is not among the reasons: the activity reason skips it and no other reason starts with "C". */
  lemma ExploringNeverShown(skill: SkillMetadata.Skill, c: ContextAnalyzer.ContextAnalysis, state: ProjectAnalyzer.ProjectState)
    ensures Currently + "exploring" !in Reasons(skill, c, state)
  {
    var others := OtherReasons(skill, c, state);
    var exploring := Currently + "exploring";
    assert exploring[0] == 'C';
    assert exploring !in others;
    if c.currentActivity != "" && c.currentActivity != "exploring" {
      ActivityReasonDiffers(c.currentActivity);
      assert Reasons(skill, c, state) == [Currently + c.currentActivity] + others;
    }
  }

  lemma ActivityReasonDiffers(activity: string)
    requires activity != "exploring"
    ensures Currently + activity != Currently + "exploring"
  {
    assert (Currently + activity)[|Currently|..] == activity;
    assert (Currently + "exploring")[|Currently|..] == "exploring";
  }

  /** `recommend_for_scenario`'s filters: "new_project" asks for high priority; any other scenario filters nothing. */
  function ScenarioFilters(scenario: string): (f: Filters)
    ensures f.category.None?
    ensures f.priority.Some? <==> scenario == "new_project"
    ensures f.priority.Some? ==> f.priority.value == "high"
  {
    if scenario == "new_project" then Filters(None, Some("high")) else NoFilters()
  }

  /** `recommend_for_scenario`: at most five recommendations at confidence 60 or more. */
  method RecommendForScenario(skills: seq<SkillMetadata.Skill>, c: ContextAnalyzer.ContextAnalysis,
                              state: ProjectAnalyzer.ProjectState, prefs: UserPatterns.Preferences, scenario: string)
    returns (result: seq<Recommendation>)
    ensures result == Recommendations(skills, c, state, prefs, 5, 60.0, ScenarioFilters(scenario))
    ensures |result| <= 5
    ensures forall i :: 0 <= i < |result| ==> result[i].confidence >= 60.0
    ensures scenario == "new_project" ==> forall i :: 0 <= i < |result| ==> result[i].skill.priority == "high"
  {
    result := Recommend(skills, c, state, prefs, 5, 60.0, ScenarioFilters(scenario));
    RecommendationsFacts(skills, c, state, prefs, 5, 60.0, ScenarioFilters(scenario));
  }

  /** One entry of a grouping dict: a key and the names filed under it, in order. */
  datatype Group = Group(key: string, names: seq<string>)

  /** `groups[key].append(name)`, creating the entry at the end when the key is new. */
  function AddTo(groups: seq<Group>, key: string, name: string): (r: seq<Group>)
    ensures |r| == |groups| || |r| == |groups| + 1
  {
    if |groups| == 0 then [Group(key, [name])]
    else if groups[0].key == key then [groups[0].(names := groups[0].names + [name])] + groups[1..]
    else [groups[0]] + AddTo(groups[1..], key, name)
  }

  /** The names filed under `key`, or none. */
  function Lookup(groups: seq<Group>, key: string): seq<string> {
    if |groups| == 0 then []
    else if groups[0].key == key then groups[0].names
    else Lookup(groups[1..], key)
  }

  function Keys(groups: seq<Group>): set<string> {
    if |groups| == 0 then {} else {groups[0].key} + Keys(groups[1..])
  }

  predicate UniqueKeys(groups: seq<Group>) {
    |groups| == 0 || (groups[0].key !in Keys(groups[1..]) && UniqueKeys(groups[1..]))
  }

  lemma {:induction false} AddToFacts(groups: seq<Group>, key: string, name: string)
    requires UniqueKeys(groups)
    ensures UniqueKeys(AddTo(groups, key, name))
    ensures Keys(AddTo(groups, key, name)) == Keys(groups) + {key}
    ensures forall k :: Lookup(AddTo(groups, key, name), k) == Lookup(groups, k) + (if k == key then [name] else [])
    decreases |groups|
  {
    if |groups| > 0 {
      if groups[0].key == key {
        var r := AddTo(groups, key, name);
        assert r[1..] == groups[1..];
        forall k ensures Lookup(r, k) == Lookup(groups, k) + (if k == key then [name] else []) {
          if k != key {
            NotKeyLookup(groups[1..], key);
          }
        }
      } else {
        AddToFacts(groups[1..], key, name);
        var r := AddTo(groups, key, name);
        assert r[1..] == AddTo(groups[1..], key, name);
      }
    }
  }

  lemma {:induction false} NotKeyLookup(groups: seq<Group>, key: string)
    requires key !in Keys(groups)
    ensures Lookup(groups, key) == []
    decreases |groups|
  {
    if |groups| > 0 {
      NotKeyLookup(groups[1..], key);
    }
  }

  /** The names with key `k`, in order. */
  function NamesWithKey(pairs: seq<(string, string)>, k: string): seq<string> {
    if |pairs| == 0 then []
    else NamesWithKey(pairs[..|pairs| - 1], k) + (if pairs[|pairs| - 1].0 == k then [pairs[|pairs| - 1].1] else [])
  }

  function PairKeys(pairs: seq<(string, string)>): set<string> {
    if |pairs| == 0 then {} else PairKeys(pairs[..|pairs| - 1]) + {pairs[|pairs| - 1].0}
  }

  /** The grouping loop's result over a list of (key, name) pairs. */
  function GroupPairs(pairs: seq<(string, string)>): seq<Group> {
    if |pairs| == 0 then []
    else AddTo(GroupPairs(pairs[..|pairs| - 1]), pairs[|pairs| - 1].0, pairs[|pairs| - 1].1)
  }

  /**
   * Grouping files every name under its own key and nowhere else: one entry per
   * key that occurs, each listing exactly the names with that key, in order.
   */
  lemma {:induction false} GroupPairsFacts(pairs: seq<(string, string)>)
    ensures UniqueKeys(GroupPairs(pairs))
    ensures Keys(GroupPairs(pairs)) == PairKeys(pairs)
    ensures forall k :: Lookup(GroupPairs(pairs), k) == NamesWithKey(pairs, k)
    decreases |pairs|
  {
    if |pairs| > 0 {
      var init := pairs[..|pairs| - 1];
      GroupPairsFacts(init);
      AddToFacts(GroupPairs(init), pairs[|pairs| - 1].0, pairs[|pairs| - 1].1);
    }
  }

  /** The (bucket, name) pairs and the (skill category, name) pairs of a list of recommendations. */
  function ByBucket(recs: seq<Recommendation>): (r: seq<(string, string)>)
    ensures |r| == |recs| && forall i :: 0 <= i < |recs| ==> r[i] == (recs[i].category, recs[i].skill.name)
  {
    seq(|recs|, i requires 0 <= i < |recs| => (recs[i].category, recs[i].skill.name))
  }

  function BySkillCategory(recs: seq<Recommendation>): (r: seq<(string, string)>)
    ensures |r| == |recs| && forall i :: 0 <= i < |recs| ==> r[i] == (recs[i].skill.category, recs[i].skill.name)
  {
    seq(|recs|, i requires 0 <= i < |recs| => (recs[i].skill.category, recs[i].skill.name))
  }

  function SumConfidence(recs: seq<Recommendation>): real {
    if |recs| == 0 then 0.0 else SumConfidence(recs[..|recs| - 1]) + recs[|recs| - 1].confidence
  }

  /** The summary dict; `topRecommendation` is `None` where the key is missing. */
  datatype Summary = Summary(
    totalCount: nat,
    byCategory: seq<Group>,
    bySkillCategory: seq<Group>,
    averageConfidence: real,
    topRecommendation: Option<string>)

  function SummaryOf(recs: seq<Recommendation>): Summary {
    if |recs| == 0 then Summary(0, [], [], 0.0, None)
    else Summary(|recs|, GroupPairs(ByBucket(recs)), GroupPairs(BySkillCategory(recs)),
                 SumConfidence(recs) / |recs| as real, Some(recs[0].skill.name))
  }

  /** `get_recommendation_summary`: two grouping loops and the average. */
  method GetRecommendationSummary(recs: seq<Recommendation>) returns (s: Summary)
    ensures s == SummaryOf(recs)
  {
    if |recs| == 0 {
      return Summary(0, [], [], 0.0, None);
    }
    var byCategory: seq<Group> := [];
    var i := 0;
    while i < |recs|
      invariant 0 <= i <= |recs|
      invariant byCategory == GroupPairs(ByBucket(recs)[..i])
    {
      assert ByBucket(recs)[..i + 1][..i] == ByBucket(recs)[..i];
      byCategory := AddTo(byCategory, recs[i].category, recs[i].skill.name);
      i := i + 1;
    }
    assert ByBucket(recs)[..|recs|] == ByBucket(recs);
    var bySkillCategory: seq<Group> := [];
    i := 0;
    while i < |recs|
      invariant 0 <= i <= |recs|
      invariant bySkillCategory == GroupPairs(BySkillCategory(recs)[..i])
    {
      assert BySkillCategory(recs)[..i + 1][..i] == BySkillCategory(recs)[..i];
      bySkillCategory := AddTo(bySkillCategory, recs[i].skill.category, recs[i].skill.name);
      i := i + 1;
    }
    assert BySkillCategory(recs)[..|recs|] == BySkillCategory(recs);
    var total := 0.0;
    i := 0;
    while i < |recs|
      invariant 0 <= i <= |recs|
      invariant total == SumConfidence(recs[..i])
    {
      assert recs[..i + 1][..i] == recs[..i];
      total := total + recs[i].confidence;
      i := i + 1;
    }
    assert recs[..|recs|] == recs;
    s := Summary(|recs|, byCategory, bySkillCategory, total / |recs| as real, Some(recs[0].skill.name));
  }

  lemma {:induction false} NamesWithKeyMembers(pairs: seq<(string, string)>, k: string, name: string)
    ensures name in NamesWithKey(pairs, k) <==> (k, name) in pairs
    decreases |pairs|
  {
    if |pairs| > 0 {
      var init := pairs[..|pairs| - 1];
      NamesWithKeyMembers(init, k, name);
      assert pairs == init + [pairs[|pairs| - 1]];
    }
  }

  lemma {:induction false} SumConfidenceBounds(recs: seq<Recommendation>, lo: real, hi: real)
    requires forall i :: 0 <= i < |recs| ==> lo <= recs[i].confidence <= hi
    ensures |recs| as real * lo <= SumConfidence(recs) <= |recs| as real * hi
    decreases |recs|
  {
    if |recs| > 0 {
      SumConfidenceBounds(recs[..|recs| - 1], lo, hi);
    }
  }

  /** A name is filed under a key exactly when some pair carries both. */
  lemma GroupMembership(pairs: seq<(string, string)>)
    ensures forall k, name :: name in Lookup(GroupPairs(pairs), k) <==> (k, name) in pairs
  {
    GroupPairsFacts(pairs);
    forall k, name ensures name in Lookup(GroupPairs(pairs), k) <==> (k, name) in pairs {
      NamesWithKeyMembers(pairs, k, name);
    }
  }

  /** The average lies within any range holding every confidence. */
  lemma AverageBounds(recs: seq<Recommendation>, lo: real, hi: real)
    requires |recs| > 0
    requires forall i :: 0 <= i < |recs| ==> lo <= recs[i].confidence <= hi
    ensures lo <= SummaryOf(recs).averageConfidence <= hi
  {
    SumConfidenceBounds(recs, lo, hi);
    QuotientBetween(SumConfidence(recs), |recs| as real, lo, hi);
  }

  lemma QuotientBetween(total: real, n: real, lo: real, hi: real)
    requires n > 0.0 && n * lo <= total <= n * hi
    ensures lo <= total / n <= hi
  {
    var q := total / n;
    assert q * n == total;
    assert (q - lo) * n >= 0.0;
    NonNegativeFactor(q - lo, n);
    assert (hi - q) * n >= 0.0;
    NonNegativeFactor(hi - q, n);
  }

  lemma NonNegativeFactor(a: real, n: real)
    requires n > 0.0 && a * n >= 0.0
    ensures a >= 0.0
  {
  }

  /**
   * The summary counts every recommendation, files each name under its own
   * bucket and its own skill category and under nothing it does not carry, and
   * names the first entry as the top one; an empty list gives zeros and no top
   * entry.
   */
  lemma SummaryFacts(recs: seq<Recommendation>)
    ensures var s := SummaryOf(recs);
      && s.totalCount == |recs|
      && (|recs| == 0 <==> s.topRecommendation.None?)
      && (|recs| == 0 ==> s.byCategory == [] && s.bySkillCategory == [] && s.averageConfidence == 0.0)
      && (|recs| > 0 ==> s.topRecommendation == Some(recs[0].skill.name))
      && (forall k, name :: name in Lookup(s.byCategory, k) <==> (k, name) in ByBucket(recs))
      && (forall k, name :: name in Lookup(s.bySkillCategory, k) <==> (k, name) in BySkillCategory(recs))
  {
    if |recs| > 0 {
      GroupMembership(ByBucket(recs));
      GroupMembership(BySkillCategory(recs));
    }
  }

  /** Each recommendation's name is filed under its own bucket and its own skill category. */
  lemma SummaryFilesEveryName(recs: seq<Recommendation>, i: nat)
    requires i < |recs|
    ensures recs[i].skill.name in Lookup(SummaryOf(recs).byCategory, recs[i].category)
    ensures recs[i].skill.name in Lookup(SummaryOf(recs).bySkillCategory, recs[i].skill.category)
  {
    SummaryFacts(recs);
    assert ByBucket(recs)[i] == (recs[i].category, recs[i].skill.name);
    assert BySkillCategory(recs)[i] == (recs[i].skill.category, recs[i].skill.name);
  }

  /** With distinct names, a name is filed under no bucket but its own. */
  lemma SummaryNameInOneBucket(recs: seq<Recommendation>, i: nat, k: string)
    requires i < |recs|
    requires forall a, b :: 0 <= a < b < |recs| ==> recs[a].skill.name != recs[b].skill.name
    requires k != recs[i].category
    ensures recs[i].skill.name !in Lookup(SummaryOf(recs).byCategory, k)
  {
    var pairs := ByBucket(recs);
    GroupMembership(pairs);
    forall j | 0 <= j < |pairs|
      ensures pairs[j] != (k, recs[i].skill.name)
    {
      if j != i {
        assert recs[j].skill.name != recs[i].skill.name;
      }
    }
  }
}
