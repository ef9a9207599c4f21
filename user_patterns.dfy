/**
 * The user-pattern store: learned preferences (success rates with exponential
 * smoothing, preferred and avoided skills) and an append-only feedback log,
 * with the affinity, context-similarity and complexity-tolerance reads over them.
 *
 * The JSON files behind the store are its two fields; the clock is a parameter.
 */
module UserPatterns {
  import opened Wrappers
  import Sorting
  import ContextAnalyzer

  /** `UserPreferences`. */
  datatype Preferences = Preferences(
    preferred: set<string>,
    avoided: set<string>,
    successRates: map<string, real>,
    complexityTolerance: string,
    domainExpertise: set<string>,
    lastUpdated: string)

  /** The preferences of a store with nothing saved yet. */
  function DefaultPreferences(): Preferences {
    Preferences({}, {}, map[], "medium", {}, "")
  }

  /**
   * The context dict a feedback entry keeps: its `current_activity` (absent is
   * `None`) and its `file_types` list.
   */
  datatype StoredContext = StoredContext(activity: Option<string>, fileTypes: seq<string>)

  /** `FeedbackEntry`. */
  datatype Feedback = Feedback(
    timestamp: string,
    skill: string,
    context: StoredContext,
    outcome: string,
    rating: Option<int>,
    notes: string)

  /** The state the store keeps consistent: no skill both preferred and avoided, every rate in [0, 1]. */
  predicate ValidPreferences(p: Preferences) {
    p.preferred * p.avoided == {}
    && forall s :: s in p.successRates ==> 0.0 <= p.successRates[s] <= 1.0
  }

  /**
   * How `record_feedback` stores a context analysis: its activity and its file
   * types, the set turned into a list (here in code-point order).
   */
  function Snapshot(c: ContextAnalyzer.ContextAnalysis): (r: StoredContext)
    ensures r.activity == Some(c.currentActivity)
    ensures forall t :: t in r.fileTypes <==> t in c.fileTypes
    ensures |r.fileTypes| == |c.fileTypes|
  {
    StoredContext(Some(c.currentActivity), Sorting.SortedOf(c.fileTypes))
  }

  /** The smoothing step: start at 0.5, then move a fifth of the way towards 1 on success, towards 0 otherwise. */
  function NextRate(current: Option<real>, outcome: string): (r: real) {
    var rate := current.GetOr(0.5);
    var next := if outcome == "success" then rate * 0.8 + 0.2 else rate * 0.8;
    if next < 0.0 then 0.0 else if next > 1.0 then 1.0 else next
  }

  /** The rate currently stored for a skill, if any. */
  function RateOf(rates: map<string, real>, skill: string): Option<real> {
    if skill in rates then Some(rates[skill]) else None
  }

  /** The preferences `_update_preferences_from_feedback` saves, stamped at `now`. */
  function UpdatedPreferences(p: Preferences, skill: string, outcome: string, rating: Option<int>, now: string): Preferences {
    var rates := p.successRates[skill := NextRate(RateOf(p.successRates, skill), outcome)];
    var q := p.(successRates := rates, lastUpdated := now);
    if rating.Some? && rating.value >= 4 then q.(preferred := q.preferred + {skill}, avoided := q.avoided - {skill})
    else if rating.Some? && rating.value <= 2 then q.(avoided := q.avoided + {skill}, preferred := q.preferred - {skill})
    else q
  }

  /**
   * The smoothing rule: an absent rate starts at 0.5; a rate in [0, 1] becomes
   * r·0.8 + 0.2 on success and r·0.8 on any other outcome, with no clamping
   * needed; success never lowers the rate and failure never raises it.
   */
  lemma NextRateRule(r: real, outcome: string)
    requires 0.0 <= r <= 1.0
    ensures NextRate(None, outcome) == NextRate(Some(0.5), outcome)
    ensures outcome == "success" ==> NextRate(Some(r), outcome) == r * 0.8 + 0.2 >= r
    ensures outcome != "success" ==> NextRate(Some(r), outcome) == r * 0.8 <= r
    ensures 0.0 <= NextRate(Some(r), outcome) <= 1.0
  {
  }

  /** Whatever is stored, even out of range, the new rate lies in [0, 1]. */
  lemma NextRateClamped(current: Option<real>, outcome: string)
    ensures 0.0 <= NextRate(current, outcome) <= 1.0
  {
  }

  /**
   * Ratings steer the two sets: 4 or more prefers the skill, 2 or less avoids
   * it, anything else (3, out-of-range values in between, none) leaves both sets
   * alone; the rate is always updated.
   */
  lemma UpdateRatingRules(p: Preferences, skill: string, outcome: string, rating: Option<int>, now: string)
    ensures var q := UpdatedPreferences(p, skill, outcome, rating, now);
      && q.successRates[skill] == NextRate(RateOf(p.successRates, skill), outcome)
      && (rating.Some? && rating.value >= 4 ==> skill in q.preferred && skill !in q.avoided)
      && (rating.Some? && rating.value <= 2 ==> skill in q.avoided && skill !in q.preferred)
      && (rating.None? || rating.value == 3 ==> q.preferred == p.preferred && q.avoided == p.avoided)
  {
  }

  /** An update touches only the given skill: every other skill's rate and set membership is kept, and so is the rest. */
  lemma UpdateFrame(p: Preferences, skill: string, outcome: string, rating: Option<int>, now: string, other: string)
    requires other != skill
    ensures var q := UpdatedPreferences(p, skill, outcome, rating, now);
      && (other in q.successRates <==> other in p.successRates)
      && (other in p.successRates ==> q.successRates[other] == p.successRates[other])
      && (other in q.preferred <==> other in p.preferred)
      && (other in q.avoided <==> other in p.avoided)
      && q.complexityTolerance == p.complexityTolerance
      && q.domainExpertise == p.domainExpertise
      && q.successRates.Keys == p.successRates.Keys + {skill}
  {
  }

  /** Updates keep the store consistent: preferred and avoided stay disjoint and rates stay in [0, 1]. */
  lemma UpdatePreservesValid(p: Preferences, skill: string, outcome: string, rating: Option<int>, now: string)
    requires ValidPreferences(p)
    ensures ValidPreferences(UpdatedPreferences(p, skill, outcome, rating, now))
  {
    NextRateClamped(RateOf(p.successRates, skill), outcome);
  }

  /** Real powers with a natural exponent. */
  function Pow(x: real, n: nat): real {
    if n == 0 then 1.0 else x * Pow(x, n - 1)
  }

  lemma {:induction false} PowPositive(n: nat)
    ensures 0.0 < Pow(0.8, n) <= 1.0
  {
    if n > 0 {
      PowPositive(n - 1);
    }
  }

  /** `n` successive successes on one skill, with no rating. */
  function Successes(p: Preferences, skill: string, n: nat, now: string): Preferences {
    if n == 0 then p else UpdatedPreferences(Successes(p, skill, n - 1, now), skill, "success", None, now)
  }

  /**
   * From an absent rate, `n >= 1` successes give 1 − 0.5·0.8ⁿ: the rate climbs
   * towards 1 but never reaches it.
   */
  lemma {:induction false} SuccessesClosedForm(p: Preferences, skill: string, n: nat, now: string)
    requires skill !in p.successRates && n >= 1
    ensures skill in Successes(p, skill, n, now).successRates
    ensures Successes(p, skill, n, now).successRates[skill] == 1.0 - 0.5 * Pow(0.8, n)
    ensures Successes(p, skill, n, now).successRates[skill] < 1.0
  {
    PowPositive(n);
    if n > 1 {
      SuccessesClosedForm(p, skill, n - 1, now);
      var r := 1.0 - 0.5 * Pow(0.8, n - 1);
      PowPositive(n - 1);
      assert r * 0.8 + 0.2 == 1.0 - 0.5 * Pow(0.8, n);
    }
  }

  /** Five successes from scratch give 0.83616. */
  lemma FiveSuccesses(p: Preferences, skill: string, now: string)
    requires skill !in p.successRates
    ensures Successes(p, skill, 5, now).successRates[skill] == 0.83616
  {
    SuccessesClosedForm(p, skill, 5, now);
    assert Pow(0.8, 5) == 0.32768;
  }

  /**
   * `_is_similar_context` between a stored context and the current analysis:
   * equal activities, or non-empty file-type sets that share a type.
   */
  predicate Similar(stored: StoredContext, current: ContextAnalyzer.ContextAnalysis) {
    stored.activity == Some(current.currentActivity)
    || (exists t :: t in stored.fileTypes && t in current.fileTypes)
  }

  /** Every context is similar to its own stored form, and a stored context without an activity or types is similar to nothing. */
  lemma SimilarFacts(c: ContextAnalyzer.ContextAnalysis, d: ContextAnalyzer.ContextAnalysis)
    ensures Similar(Snapshot(c), c)
    ensures !Similar(StoredContext(None, []), d)
    ensures Similar(Snapshot(c), d) <==> c.currentActivity == d.currentActivity || c.fileTypes * d.fileTypes != {}
  {
    if c.fileTypes * d.fileTypes != {} {
      var t :| t in c.fileTypes * d.fileTypes;
      assert t in Snapshot(c).fileTypes;
    }
  }

  /** The successful entries for a skill recorded in a context similar to the current one. */
  function SimilarSuccesses(history: seq<Feedback>, skill: string, c: ContextAnalyzer.ContextAnalysis): (n: nat)
    ensures n <= |history|
  {
    if |history| == 0 then 0
    else
      var last := history[|history| - 1];
      var hit := last.skill == skill && last.outcome == "success" && Similar(last.context, c);
      SimilarSuccesses(history[..|history| - 1], skill, c) + (if hit then 1 else 0)
  }

  function Min(a: real, b: real): real {
    if a <= b then a else b
  }

  /** `calculate_skill_affinity`; `None` is a context that is absent or falsy. */
  function Affinity(p: Preferences, history: seq<Feedback>, skill: string, context: Option<ContextAnalyzer.ContextAnalysis>): real {
    if skill in p.avoided then 0.0
    else
      var preferred := if skill in p.preferred then 0.3 else 0.0;
      var rate := if skill in p.successRates then p.successRates[skill] * 0.5 else 0.0;
      var n := if context.Some? then SimilarSuccesses(history, skill, context.value) else 0;
      var bonus := if n > 0 then Min(0.2, n as real * 0.05) else 0.0;
      Min(1.0, preferred + rate + bonus)
  }

  /**
   * Avoidance wins outright; otherwise affinity is the sum of the preference,
   * rate and similarity parts, which with valid preferences lies in [0, 1]
   * (at most 0.3 + 0.5 + 0.2), so the cap never bites.
   */
  lemma AffinityFacts(p: Preferences, history: seq<Feedback>, skill: string, context: Option<ContextAnalyzer.ContextAnalysis>)
    requires ValidPreferences(p)
    ensures skill in p.avoided ==> Affinity(p, history, skill, context) == 0.0
    ensures 0.0 <= Affinity(p, history, skill, context) <= 1.0
    ensures skill !in p.avoided && skill in p.preferred ==> Affinity(p, history, skill, context) >= 0.3
    ensures skill !in p.avoided && skill !in p.successRates && context.None? ==>
      Affinity(p, history, skill, context) == (if skill in p.preferred then 0.3 else 0.0)
  {
  }

  /** Each similar success adds 0.05 of affinity, up to four of them. */
  lemma AffinitySimilarityBonus(p: Preferences, history: seq<Feedback>, skill: string, c: ContextAnalyzer.ContextAnalysis)
    requires ValidPreferences(p) && skill !in p.avoided && skill !in p.preferred && skill !in p.successRates
    ensures var n := SimilarSuccesses(history, skill, c);
      Affinity(p, history, skill, Some(c)) == (if n >= 4 then 0.2 else n as real * 0.05)
  {
  }

  /** The skills whose successes mark a user as comfortable with complexity. */
  function ComplexSkills(): set<string> {
    {"skill-extractor", "refactoring", "lemma-dependency-graph", "anti-pattern-sniffer", "quantum-circuit-optimizer"}
  }

  function ComplexSuccesses(history: seq<Feedback>): (n: nat)
    ensures n <= |history|
  {
    if |history| == 0 then 0
    else
      var last := history[|history| - 1];
      ComplexSuccesses(history[..|history| - 1]) + (if last.skill in ComplexSkills() && last.outcome == "success" then 1 else 0)
  }

  /** `determine_complexity_tolerance`. */
  function ComplexityTolerance(p: Preferences, history: seq<Feedback>): (r: string)
    ensures p.complexityTolerance != "medium" ==> r == p.complexityTolerance
    ensures p.complexityTolerance == "medium" ==> r in {"low", "medium", "high"}
  {
    if p.complexityTolerance != "medium" then p.complexityTolerance
    else if |history| == 0 then "medium"
    else
      var n := ComplexSuccesses(history);
      if n >= 3 then "high"
      else if n == 0 && |history| > 5 then "low"
      else "medium"
  }

  function ToleranceLevel(t: string): nat {
    if t == "low" then 0 else if t == "medium" then 1 else 2
  }

  /**
   * With no stored preference the tolerance follows the history: "high" exactly
   * when at least three complex skills succeeded, "low" exactly when none did in
   * more than five entries.
   */
  lemma ToleranceRules(p: Preferences, history: seq<Feedback>)
    requires p.complexityTolerance == "medium"
    ensures ComplexityTolerance(p, history) == "high" <==> ComplexSuccesses(history) >= 3
    ensures ComplexityTolerance(p, history) == "low" <==> ComplexSuccesses(history) == 0 && |history| > 5
  {
  }

  /** Recording another success on a complex skill never lowers the inferred tolerance. */
  lemma ToleranceMonotone(p: Preferences, history: seq<Feedback>, e: Feedback)
    requires e.skill in ComplexSkills() && e.outcome == "success"
    ensures ToleranceLevel(ComplexityTolerance(p, history)) <= ToleranceLevel(ComplexityTolerance(p, history + [e]))
  {
    assert (history + [e])[..|history|] == history;
  }

  /** `UserPatternAnalyzer` with its two stores held in memory. */
  class UserPatternStore {
    var prefs: Preferences
    var history: seq<Feedback>

    /** A store with no saved preferences and no feedback. */
    constructor()
      ensures prefs == DefaultPreferences() && history == []
      ensures ValidPreferences(prefs)
    {
      prefs := DefaultPreferences();
      history := [];
    }

    /** `save_feedback_entry`: the entry goes at the end of the log. */
    method SaveFeedbackEntry(entry: Feedback)
      modifies this
      ensures history == old(history) + [entry]
      ensures prefs == old(prefs)
    {
      history := history + [entry];
    }

    /** `_update_preferences_from_feedback`, saved at time `now`. */
    method UpdatePreferencesFromFeedback(skill: string, outcome: string, rating: Option<int>, now: string)
      modifies this
      ensures prefs == UpdatedPreferences(old(prefs), skill, outcome, rating, now)
      ensures history == old(history)
    {
      var rates := prefs.successRates;
      if skill !in rates {
        rates := rates[skill := 0.5];
      }
      var current := rates[skill];
      var newRate := if outcome == "success" then current * 0.8 + 0.2 else current * 0.8;
      rates := rates[skill := if newRate < 0.0 then 0.0 else if newRate > 1.0 then 1.0 else newRate];
      var p := prefs.(successRates := rates);
      if rating.Some? {
        if rating.value >= 4 {
          p := p.(preferred := p.preferred + {skill});
          p := p.(avoided := p.avoided - {skill});
        } else if rating.value <= 2 {
          p := p.(avoided := p.avoided + {skill});
          p := p.(preferred := p.preferred - {skill});
        }
      }
      prefs := p.(lastUpdated := now);
    }

    /** `record_feedback`: append one entry stamped `now`, then update the preferences from it. */
    method RecordFeedback(skill: string, context: ContextAnalyzer.ContextAnalysis, outcome: string,
                          rating: Option<int>, notes: string, now: string)
      modifies this
      ensures history == old(history) + [Feedback(now, skill, Snapshot(context), outcome, rating, notes)]
      ensures prefs == UpdatedPreferences(old(prefs), skill, outcome, rating, now)
      ensures ValidPreferences(old(prefs)) ==> ValidPreferences(prefs)
    {
      var entry := Feedback(now, skill, Snapshot(context), outcome, rating, notes);
      SaveFeedbackEntry(entry);
      UpdatePreferencesFromFeedback(skill, outcome, rating, now);
      if ValidPreferences(old(prefs)) {
        UpdatePreservesValid(old(prefs), skill, outcome, rating, now);
      }
    }
  }
}
