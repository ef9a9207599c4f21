/**
 * The skills installer: the built-in manifest of categories and skills, the
 * lookups over it, the dependency-first installation of one skill, the
 * counting installs of a category and of everything, uninstalling, and the
 * installation report.
 *
 * The file system is abstracted as sets: `sources` holds the manifest file
 * paths that exist, `installed` the stems of the `.md` files in the target
 * directory. Installing a skill adds its name to `installed`.
 */
module Installer {
  import opened Wrappers

  /** A manifest entry: the skill's name and its record. */
  datatype SkillRecord = SkillRecord(
    name: string,
    file: string,
    description: string,
    priority: string,
    dependencies: seq<string>)

  /** A manifest category: its name, description and skills, in manifest order. */
  datatype Category = Category(name: string, description: string, skills: seq<SkillRecord>)

  type Manifest = seq<Category>

  /** `get_skill_info`'s result: the record copied, plus the category it was found in. */
  datatype SkillInfo = SkillInfo(record: SkillRecord, category: string)

  /** `get_skills_by_category`'s result: the category's skills, or the `ValueError` raised. */
  datatype CategoryLookup = Found(skills: seq<SkillRecord>) | UnknownCategory(message: string)

  function Rec(name: string, category: string, priority: string, description: string, dependencies: seq<string>): SkillRecord {
    SkillRecord(name, "skills/" + category + "/" + name + "/SKILL.md", description, priority, dependencies)
  }

  const MetaDescription: string := "Meta-skills for workflow management and automation"
  const DevelopmentDescription: string := "Core development and coding skills"
  const GitDescription: string := "Git and version control utilities"
  const AnalysisDescription: string := "Code analysis and debugging tools"

  // The skills' descriptions, as the manifest gives them.
  const SessionSnapshotDescription: string := "Complete session context management"
  const SkillExtractorDescription: string := "Automated skill discovery and documentation"
  const SkillRecommendationEngineDescription: string := "Context-aware skill recommendations"
  const ClaudeStartupIntegrationDescription: string := "Startup configuration and optimization"
  const StartupSkillShowcaseDescription: string := "Interactive skill demonstration and showcase"
  const ManifestGeneratorDescription: string := "Generate and manage skill manifests"
  const LeanPlanDescription: string := "Token-efficient planning mode for complex tasks"
  const QuickTestRunnerDescription: string := "Fast test execution and validation workflows"
  const RefactoringDescription: string := "Code restructuring and modernization workflows"
  const DiffSummariserDescription: string := "Summarize git diffs for code review"
  const MigrateRepoDescription: string := "Transfer repositories between accounts/orgs"
  const RepoBriefingDescription: string := "Generate compact repository summaries"
  const ApiContractSnifferDescription: string := "Detect API contract violations and inconsistencies"
  const DeadCodeHunterDescription: string := "Find unused functions, imports, and dead code"
  const DependencyAuditDescription: string := "Check for outdated and vulnerable dependencies"
  const AntiPatternSnifferDescription: string := "Detect proof anti-patterns in formal verification"
  const LemmaDependencyGraphDescription: string := "Visualize proof dependencies and relationships"
  const ProofObligationsSnapshotDescription: string := "Track unproven obligations in formal systems"
  const TacticUsageCountDescription: string := "Analyze proof tactics usage patterns"
  const QuantumCircuitOptimizerDescription: string := "Optimize quantum circuits by reducing gate count and depth"

  /** `_load_skills_manifest`. */
  function SkillsManifest(): Manifest {
    [ Category("meta", MetaDescription, MetaSkills()),
      Category("development", DevelopmentDescription, DevelopmentSkills()),
      Category("git", GitDescription, GitSkills()),
      Category("analysis", AnalysisDescription, AnalysisSkills()) ]
  }

  function MetaSkills(): seq<SkillRecord> {
    [ Rec("session-snapshot", "meta", "high", SessionSnapshotDescription, []),
      Rec("skill-extractor", "meta", "high", SkillExtractorDescription, []),
      Rec("skill-recommendation-engine", "meta", "medium", SkillRecommendationEngineDescription, ["skill-extractor"]),
      Rec("claude-startup-integration", "meta", "medium", ClaudeStartupIntegrationDescription, []),
      Rec("startup-skill-showcase", "meta", "medium", StartupSkillShowcaseDescription, []),
      Rec("manifest-generator", "meta", "low", ManifestGeneratorDescription, []) ]
  }

  function DevelopmentSkills(): seq<SkillRecord> {
    [ Rec("lean-plan", "development", "high", LeanPlanDescription, []),
      Rec("quick-test-runner", "development", "high", QuickTestRunnerDescription, []),
      Rec("refactoring", "development", "medium", RefactoringDescription, []) ]
  }

  function GitSkills(): seq<SkillRecord> {
    [ Rec("diff-summariser", "git", "high", DiffSummariserDescription, []),
      Rec("migrate-repo", "git", "medium", MigrateRepoDescription, []),
      Rec("repo-briefing", "git", "medium", RepoBriefingDescription, []) ]
  }

  function AnalysisSkills(): seq<SkillRecord> {
    [ Rec("api-contract-sniffer", "analysis/code", "high", ApiContractSnifferDescription, []),
      Rec("dead-code-hunter", "analysis/code", "high", DeadCodeHunterDescription, []),
      Rec("dependency-audit", "analysis/code", "high", DependencyAuditDescription, []),
      Rec("anti-pattern-sniffer", "analysis/formal", "medium", AntiPatternSnifferDescription, []),
      Rec("lemma-dependency-graph", "analysis/formal", "medium", LemmaDependencyGraphDescription, []),
      Rec("proof-obligations-snapshot", "analysis/formal", "medium", ProofObligationsSnapshotDescription, []),
      Rec("tactic-usage-count", "analysis/formal", "low", TacticUsageCountDescription, []),
      Rec("quantum-circuit-optimizer", "analysis/quantum", "medium", QuantumCircuitOptimizerDescription, []) ]
  }

  /** A record whose dependencies are none, or the engine's one dependency on the extractor. */
  predicate PlainDependencies(r: SkillRecord) {
    r.dependencies == [] || (r.name == "skill-recommendation-engine" && r.dependencies == ["skill-extractor"])
  }

  // ---------------------------------------------------------------- lookups

  /** `skills[name]` for a category's skill dict. */
  function FindIn(skills: seq<SkillRecord>, name: string): (r: Option<SkillRecord>)
    ensures r.Some? <==> exists i :: 0 <= i < |skills| && skills[i].name == name
    ensures r.Some? ==> r.value in skills && r.value.name == name
  {
    if |skills| == 0 then None
    else if skills[0].name == name then Some(skills[0])
    else FindIn(skills[1..], name)
  }

  predicate HasSkill(c: Category, name: string) {
    FindIn(c.skills, name).Some?
  }

  /** `get_skills_by_category`: the category's skills, or an error for an unknown category. */
  function SkillsByCategory(m: Manifest, category: string): (r: CategoryLookup)
    ensures r.UnknownCategory? <==> forall c :: c in m ==> c.name != category
    ensures r.UnknownCategory? ==> r.message == "Unknown category: " + category
    ensures r.Found? ==> exists c :: c in m && c.name == category && r.skills == c.skills
  {
    if |m| == 0 then UnknownCategory("Unknown category: " + category)
    else if m[0].name == category then Found(m[0].skills)
    else SkillsByCategory(m[1..], category)
  }

  /**
   * `get_skill_info`: the skill's record from the first category that has it,
   * tagged with that category; nothing for an unknown skill.
   */
  function GetSkillInfo(m: Manifest, name: string): (r: Option<SkillInfo>) {
    if |m| == 0 then None
    else if HasSkill(m[0], name) then Some(SkillInfo(FindIn(m[0].skills, name).value, m[0].name))
    else GetSkillInfo(m[1..], name)
  }

  /** A skill is found exactly when some category has it, and the result comes from such a category. */
  lemma {:induction false} GetSkillInfoFacts(m: Manifest, name: string)
    ensures GetSkillInfo(m, name).Some? <==> exists c :: c in m && HasSkill(c, name)
    ensures GetSkillInfo(m, name).Some? ==>
      var info := GetSkillInfo(m, name).value;
      info.record.name == name
      && exists c :: c in m && c.name == info.category && HasSkill(c, name) && info.record == FindIn(c.skills, name).value
    decreases |m|
  {
    if |m| > 0 && !HasSkill(m[0], name) {
      GetSkillInfoFacts(m[1..], name);
      assert forall c :: c in m[1..] ==> c in m;
      assert forall c :: c in m ==> c == m[0] || c in m[1..];
    }
  }

  predicate Known(m: Manifest, name: string) {
    GetSkillInfo(m, name).Some?
  }

  function Deps(m: Manifest, name: string): seq<string>
    requires Known(m, name)
  {
    GetSkillInfo(m, name).value.record.dependencies
  }

  /** `list_all_skills`: each category with its skill names, in manifest order. */
  function ListAllSkills(m: Manifest): (r: seq<(string, seq<string>)>)
    ensures |r| == |m|
    ensures forall i :: 0 <= i < |m| ==> r[i].0 == m[i].name && |r[i].1| == |m[i].skills|
    ensures forall i, j :: 0 <= i < |m| && 0 <= j < |m[i].skills| ==> r[i].1[j] == m[i].skills[j].name
  {
    seq(|m|, i requires 0 <= i < |m| => (m[i].name, seq(|m[i].skills|, j requires 0 <= j < |m[i].skills| => m[i].skills[j].name)))
  }

  /** Every listed skill can be looked up, so the listing's description lookups never fail. */
  lemma ListedSkillsKnown(m: Manifest)
    ensures forall i, j :: 0 <= i < |m| && 0 <= j < |m[i].skills| ==> Known(m, ListAllSkills(m)[i].1[j])
  {
    forall i, j | 0 <= i < |m| && 0 <= j < |m[i].skills|
      ensures Known(m, ListAllSkills(m)[i].1[j])
    {
      var name := m[i].skills[j].name;
      assert HasSkill(m[i], name);
      GetSkillInfoFacts(m, name);
    }
  }

  /** The names of all manifest skills. */
  function AllSkillNames(m: Manifest): set<string> {
    set c, r | c in m && r in c.skills :: r.name
  }

  lemma KnownIsListed(m: Manifest, name: string)
    requires Known(m, name)
    ensures name in AllSkillNames(m)
  {
    GetSkillInfoFacts(m, name);
    var c :| c in m && HasSkill(c, name);
    var r := FindIn(c.skills, name).value;
    assert r in c.skills && r.name == name;
  }

  // ---------------------------------------------------------------- installing one skill

  /**
   * The manifest's dependencies are acyclic: `rank` gives every known skill a
   * number larger than that of each known dependency.
   */
  ghost predicate Ranked(m: Manifest, rank: map<string, nat>) {
    forall name :: Known(m, name) ==>
      name in rank && forall d :: d in Deps(m, name) && Known(m, d) ==> d in rank && rank[d] < rank[name]
  }

  /** The recursion measure: one more than a known skill's rank, zero for an unknown name. */
  function Rank(m: Manifest, rank: map<string, nat>, name: string): nat {
    if Known(m, name) && name in rank then rank[name] + 1 else 0
  }

  /**
   * `install_skill`: the result and the installed set afterwards. An unknown
   * skill or a missing source fails untouched; a dry run succeeds untouched;
   * otherwise the dependencies are installed in order, the first failure
   * aborts, and only then the skill itself is copied.
   */
  function Install(m: Manifest, sources: set<string>, installed: set<string>, name: string, dryRun: bool,
                   rank: map<string, nat>): (bool, set<string>)
    requires Ranked(m, rank)
    decreases Rank(m, rank, name), 1
  {
    match GetSkillInfo(m, name)
    case None => (false, installed)
    case Some(info) =>
      if info.record.file !in sources then (false, installed)
      else if dryRun then (true, installed)
      else
        var r := InstallDeps(m, sources, installed, name, 0, dryRun, rank);
        if !r.0 then (false, r.1) else (true, r.1 + {name})
  }

  /** The dependency loop of `install_skill`, from the `k`-th dependency of `owner` on. */
  function InstallDeps(m: Manifest, sources: set<string>, installed: set<string>, owner: string, k: nat, dryRun: bool,
                       rank: map<string, nat>): (bool, set<string>)
    requires Ranked(m, rank) && Known(m, owner) && k <= |Deps(m, owner)|
    decreases Rank(m, rank, owner), 0, |Deps(m, owner)| - k
  {
    var deps := Deps(m, owner);
    if k == |deps| then (true, installed)
    else
      var r := Install(m, sources, installed, deps[k], dryRun, rank);
      if !r.0 then (false, r.1) else InstallDeps(m, sources, r.1, owner, k + 1, dryRun, rank)
  }

  /**
   * What one install does: it never removes a skill; it adds only known
   * skills ranked no higher than itself; an unknown skill or a missing
   * source fails and changes nothing; a dry run changes nothing and succeeds
   * exactly for a known skill with a source; a real success leaves the skill
   * and each of its dependencies (all known) installed; and a failure never
   * installs the skill itself.
   */
  lemma {:induction false} InstallFacts(m: Manifest, sources: set<string>, installed: set<string>, name: string,
                                        dryRun: bool, rank: map<string, nat>)
    requires Ranked(m, rank)
    ensures var r := Install(m, sources, installed, name, dryRun, rank);
      && installed <= r.1
      && (forall x :: x in r.1 - installed ==> Known(m, x) && Rank(m, rank, x) <= Rank(m, rank, name))
      && (!Known(m, name) ==> r == (false, installed))
      && (Known(m, name) && GetSkillInfo(m, name).value.record.file !in sources ==> r == (false, installed))
      && (dryRun ==> r.1 == installed && (r.0 <==> Known(m, name) && GetSkillInfo(m, name).value.record.file in sources))
      && (r.0 && !dryRun ==> name in r.1 && forall d :: d in Deps(m, name) ==> d in r.1 && Known(m, d))
      && (!r.0 && name !in installed ==> name !in r.1)
    decreases Rank(m, rank, name), 1
  {
    match GetSkillInfo(m, name)
    case None =>
    case Some(info) =>
      if info.record.file in sources && !dryRun {
        InstallDepsFacts(m, sources, installed, name, 0, dryRun, rank);
      }
  }

  lemma {:induction false} InstallDepsFacts(m: Manifest, sources: set<string>, installed: set<string>, owner: string, k: nat,
                                            dryRun: bool, rank: map<string, nat>)
    requires Ranked(m, rank) && Known(m, owner) && k <= |Deps(m, owner)|
    ensures var r := InstallDeps(m, sources, installed, owner, k, dryRun, rank);
      && installed <= r.1
      && (forall x :: x in r.1 - installed ==> Known(m, x) && Rank(m, rank, x) < Rank(m, rank, owner))
      && (r.0 && !dryRun ==> forall j :: k <= j < |Deps(m, owner)| ==> Deps(m, owner)[j] in r.1 && Known(m, Deps(m, owner)[j]))
    decreases Rank(m, rank, owner), 0, |Deps(m, owner)| - k
  {
    var deps := Deps(m, owner);
    if k < |deps| {
      var d := deps[k];
      InstallFacts(m, sources, installed, d, dryRun, rank);
      var (ok, after) := Install(m, sources, installed, d, dryRun, rank);
      assert Rank(m, rank, d) < Rank(m, rank, owner);
      if ok {
        InstallDepsFacts(m, sources, after, owner, k + 1, dryRun, rank);
      }
    }
  }

  /** Every entry of `[b] + rest` holds exactly when `b` and every entry of `rest` hold. */
  lemma AllTrueCons(b: bool, rest: seq<bool>)
    ensures (forall j :: 0 <= j < |[b] + rest| ==> ([b] + rest)[j]) <==> b && forall j :: 0 <= j < |rest| ==> rest[j]
  {
    if b && forall j :: 0 <= j < |rest| ==> rest[j] {
      forall j | 0 <= j < |[b] + rest|
        ensures ([b] + rest)[j]
      {
        if j > 0 {
          assert ([b] + rest)[j] == rest[j - 1];
        }
      }
    }
    if forall j :: 0 <= j < |[b] + rest| ==> ([b] + rest)[j] {
      forall j | 0 <= j < |rest|
        ensures rest[j]
      {
        assert ([b] + rest)[j + 1] == rest[j];
      }
      assert ([b] + rest)[0] == b;
    }
  }

  /**
   * The dependency loop succeeds exactly when each remaining dependency's
   * install, run from the state the earlier ones left, succeeds; it then
   * leaves the state of those installs.
   */
  lemma {:induction false} InstallDepsExactly(m: Manifest, sources: set<string>, installed: set<string>, owner: string,
                                              k: nat, dryRun: bool, rank: map<string, nat>)
    requires Ranked(m, rank) && Known(m, owner) && k <= |Deps(m, owner)|
    ensures var r := InstallDeps(m, sources, installed, owner, k, dryRun, rank);
      var each := InstallEach(m, sources, installed, Deps(m, owner)[k..], dryRun, rank);
      && (r.0 <==> forall j :: 0 <= j < |each.0| ==> each.0[j])
      && (r.0 ==> r.1 == each.1)
    decreases |Deps(m, owner)| - k
  {
    var deps := Deps(m, owner);
    if k < |deps| {
      var one := Install(m, sources, installed, deps[k], dryRun, rank);
      InstallEachCons(m, sources, installed, deps[k..], dryRun, rank);
      assert deps[k..][1..] == deps[k + 1..];
      var rest := InstallEach(m, sources, one.1, deps[k + 1..], dryRun, rank);
      AllTrueCons(one.0, rest.0);
      if one.0 {
        InstallDepsExactly(m, sources, one.1, owner, k + 1, dryRun, rank);
      }
    }
  }

  /**
   * A real install of a known skill with a source succeeds exactly when each
   * of its dependencies' installs, in order, succeeds; it then leaves their
   * state plus the skill itself. So a failing dependency fails the install
   * even when that dependency was already installed.
   */
  lemma InstallExactly(m: Manifest, sources: set<string>, installed: set<string>, name: string, dryRun: bool,
                       rank: map<string, nat>)
    requires Ranked(m, rank)
    requires Known(m, name) && GetSkillInfo(m, name).value.record.file in sources && !dryRun
    ensures var r := Install(m, sources, installed, name, dryRun, rank);
      var each := InstallEach(m, sources, installed, Deps(m, name), dryRun, rank);
      && (r.0 <==> forall j :: 0 <= j < |each.0| ==> each.0[j])
      && (r.0 ==> r.1 == each.1 + {name})
  {
    InstallDepsExactly(m, sources, installed, name, 0, dryRun, rank);
    assert Deps(m, name)[0..] == Deps(m, name);
  }

  /** When the first dependency's install fails, the install fails and the skill is not copied. */
  lemma FirstDependencyFailureAborts(m: Manifest, sources: set<string>, installed: set<string>, name: string,
                                     rank: map<string, nat>)
    requires Ranked(m, rank)
    requires Known(m, name) && GetSkillInfo(m, name).value.record.file in sources
    requires |Deps(m, name)| > 0 && !Install(m, sources, installed, Deps(m, name)[0], false, rank).0
    ensures !Install(m, sources, installed, name, false, rank).0
    ensures name !in installed ==> name !in Install(m, sources, installed, name, false, rank).1
  {
    InstallFacts(m, sources, installed, name, false, rank);
    InstallExactly(m, sources, installed, name, false, rank);
    InstallEachCons(m, sources, installed, Deps(m, name), false, rank);
  }

  // ---------------------------------------------------------------- installing many

  /** The installs of `names` in order: each result, and the installed set after the last. */
  function InstallEach(m: Manifest, sources: set<string>, installed: set<string>, names: seq<string>, dryRun: bool,
                       rank: map<string, nat>): (r: (seq<bool>, set<string>))
    requires Ranked(m, rank)
    ensures |r.0| == |names|
  {
    if |names| == 0 then ([], installed)
    else
      var prev := InstallEach(m, sources, installed, names[..|names| - 1], dryRun, rank);
      var one := Install(m, sources, prev.1, names[|names| - 1], dryRun, rank);
      (prev.0 + [one.0], one.1)
  }

  function CountTrue(rs: seq<bool>): (n: nat)
    ensures n <= |rs|
  {
    if |rs| == 0 then 0 else CountTrue(rs[..|rs| - 1]) + (if rs[|rs| - 1] then 1 else 0)
  }

  /** Installing one more name after a run of installs. */
  lemma InstallEachSnoc(m: Manifest, sources: set<string>, installed: set<string>, names: seq<string>, x: string,
                        dryRun: bool, rank: map<string, nat>)
    requires Ranked(m, rank)
    ensures var prev := InstallEach(m, sources, installed, names, dryRun, rank);
      var one := Install(m, sources, prev.1, x, dryRun, rank);
      InstallEach(m, sources, installed, names + [x], dryRun, rank) == (prev.0 + [one.0], one.1)
  {
    assert (names + [x])[..|names|] == names;
  }

  /** The installs of `names` are the first name's install followed by the rest from the state it leaves. */
  lemma InstallEachCons(m: Manifest, sources: set<string>, installed: set<string>, names: seq<string>,
                         dryRun: bool, rank: map<string, nat>)
    requires Ranked(m, rank) && |names| > 0
    ensures var one := Install(m, sources, installed, names[0], dryRun, rank);
      var rest := InstallEach(m, sources, one.1, names[1..], dryRun, rank);
      InstallEach(m, sources, installed, names, dryRun, rank) == ([one.0] + rest.0, rest.1)
  {
    InstallEachSingle(m, sources, installed, names[0], dryRun, rank);
    InstallEachAppend(m, sources, installed, [names[0]], names[1..], dryRun, rank);
    assert [names[0]] + names[1..] == names;
  }

  /** The installs of a single name are that name's install. */
  lemma InstallEachSingle(m: Manifest, sources: set<string>, installed: set<string>, name: string,
                          dryRun: bool, rank: map<string, nat>)
    requires Ranked(m, rank)
    ensures var one := Install(m, sources, installed, name, dryRun, rank);
      InstallEach(m, sources, installed, [name], dryRun, rank) == ([one.0], one.1)
  {
    var one := Install(m, sources, installed, name, dryRun, rank);
    assert [name][..0] == [];
    assert [] + [one.0] == [one.0];
  }

  /** One more install in the loop over `names`: the run so far extended by the `i`-th name. */
  lemma InstallNamesStep(m: Manifest, sources: set<string>, start: set<string>, names: seq<string>, i: int,
                         run: (seq<bool>, set<string>), one: bool, after: set<string>, dryRun: bool, rank: map<string, nat>)
    requires Ranked(m, rank) && 0 <= i < |names|
    requires run == InstallEach(m, sources, start, names[..i], dryRun, rank)
    requires (one, after) == Install(m, sources, run.1, names[i], dryRun, rank)
    ensures (run.0 + [one], after) == InstallEach(m, sources, start, names[..i + 1], dryRun, rank)
    ensures CountTrue(run.0 + [one]) == CountTrue(run.0) + (if one then 1 else 0)
  {
    InstallEachSnoc(m, sources, start, names[..i], names[i], dryRun, rank);
    CountTrueSnoc(run.0, one);
    assert names[..i + 1] == names[..i] + [names[i]];
  }

  /** One more category in the loop of `install_all`: the run so far extended by the `c`-th category's names. */
  lemma InstallAllStep(m: Manifest, sources: set<string>, start: set<string>, c: int, run: (seq<bool>, set<string>),
                       more: (seq<bool>, set<string>), dryRun: bool, rank: map<string, nat>)
    requires Ranked(m, rank) && 0 <= c < |m|
    requires run == InstallEach(m, sources, start, AllNames(m[..c]), dryRun, rank)
    requires more == InstallEach(m, sources, run.1, Names(m[c].skills), dryRun, rank)
    ensures (run.0 + more.0, more.1) == InstallEach(m, sources, start, AllNames(m[..c + 1]), dryRun, rank)
    ensures CountTrue(run.0 + more.0) == CountTrue(run.0) + CountTrue(more.0)
  {
    InstallEachAppend(m, sources, start, AllNames(m[..c]), Names(m[c].skills), dryRun, rank);
    CountTrueAppend(run.0, more.0);
    assert m[..c + 1][..c] == m[..c];
  }

  lemma CountTrueSnoc(rs: seq<bool>, b: bool)
    ensures CountTrue(rs + [b]) == CountTrue(rs) + (if b then 1 else 0)
  {
    assert (rs + [b])[..|rs|] == rs;
  }

  /** Installing `a` and then `b` is installing `a + b`. */
  lemma {:induction false} InstallEachAppend(m: Manifest, sources: set<string>, installed: set<string>, a: seq<string>,
                                             b: seq<string>, dryRun: bool, rank: map<string, nat>)
    requires Ranked(m, rank)
    ensures var first := InstallEach(m, sources, installed, a, dryRun, rank);
      var second := InstallEach(m, sources, first.1, b, dryRun, rank);
      InstallEach(m, sources, installed, a + b, dryRun, rank) == (first.0 + second.0, second.1)
    decreases |b|
  {
    if |b| == 0 {
      var first := InstallEach(m, sources, installed, a, dryRun, rank);
      assert a + b == a;
      assert InstallEach(m, sources, first.1, b, dryRun, rank) == ([], first.1);
      assert first.0 + [] == first.0;
    } else {
      var init := b[..|b| - 1];
      var x := b[|b| - 1];
      InstallEachAppend(m, sources, installed, a, init, dryRun, rank);
      InstallEachSnoc(m, sources, installed, a + init, x, dryRun, rank);
      var first := InstallEach(m, sources, installed, a, dryRun, rank);
      InstallEachSnoc(m, sources, first.1, init, x, dryRun, rank);
      var second := InstallEach(m, sources, first.1, init, dryRun, rank);
      var one := Install(m, sources, second.1, x, dryRun, rank);
      assert b == init + [x];
      assert a + b == (a + init) + [x];
      assert first.0 + second.0 + [one.0] == first.0 + (second.0 + [one.0]);
    }
  }

  lemma {:induction false} CountTrueAppend(xs: seq<bool>, ys: seq<bool>)
    ensures CountTrue(xs + ys) == CountTrue(xs) + CountTrue(ys)
    decreases |ys|
  {
    if |ys| == 0 {
      assert xs + ys == xs;
    } else {
      var init := ys[..|ys| - 1];
      CountTrueAppend(xs, init);
      CountTrueSnoc(xs + init, ys[|ys| - 1]);
      CountTrueSnoc(init, ys[|ys| - 1]);
      assert ys == init + [ys[|ys| - 1]];
      assert xs + ys == (xs + init) + [ys[|ys| - 1]];
    }
  }

  /** Counting successes equals the number of installs exactly when every install succeeded. */
  lemma {:induction false} CountTrueAll(rs: seq<bool>)
    ensures CountTrue(rs) == |rs| <==> forall i :: 0 <= i < |rs| ==> rs[i]
    decreases |rs|
  {
    if |rs| > 0 {
      CountTrueAll(rs[..|rs| - 1]);
      assert forall i :: 0 <= i < |rs| - 1 ==> rs[..|rs| - 1][i] == rs[i];
    }
  }

  /**
   * A batch of installs never removes a skill, and every skill whose real
   * install succeeded is still installed at the end.
   */
  lemma {:induction false} InstallEachFacts(m: Manifest, sources: set<string>, installed: set<string>, names: seq<string>,
                                            dryRun: bool, rank: map<string, nat>)
    requires Ranked(m, rank)
    ensures var r := InstallEach(m, sources, installed, names, dryRun, rank);
      installed <= r.1 && forall i :: 0 <= i < |names| && r.0[i] && !dryRun ==> names[i] in r.1
    ensures dryRun ==> InstallEach(m, sources, installed, names, dryRun, rank).1 == installed
    decreases |names|
  {
    if |names| > 0 {
      var init := names[..|names| - 1];
      InstallEachFacts(m, sources, installed, init, dryRun, rank);
      var (rs, mid) := InstallEach(m, sources, installed, init, dryRun, rank);
      InstallFacts(m, sources, mid, names[|names| - 1], dryRun, rank);
      var r := InstallEach(m, sources, installed, names, dryRun, rank);
      forall i | 0 <= i < |names| - 1
        ensures r.0[i] == rs[i] && names[i] == init[i]
      {
      }
    }
  }

  function Names(skills: seq<SkillRecord>): (r: seq<string>)
    ensures |r| == |skills| && forall i :: 0 <= i < |skills| ==> r[i] == skills[i].name
  {
    seq(|skills|, i requires 0 <= i < |skills| => skills[i].name)
  }

  /** `install_category`: fails for an unknown category, else succeeds when every skill in it installed. */
  function CategoryInstall(m: Manifest, sources: set<string>, installed: set<string>, category: string, dryRun: bool,
                           rank: map<string, nat>): (bool, set<string>)
    requires Ranked(m, rank)
  {
    match SkillsByCategory(m, category)
    case UnknownCategory(_) => (false, installed)
    case Found(skills) =>
      var r := InstallEach(m, sources, installed, Names(skills), dryRun, rank);
      (CountTrue(r.0) == |skills|, r.1)
  }

  /** A known category's result is the count test over its installs, and its set is theirs. */
  lemma CategoryInstallFound(m: Manifest, sources: set<string>, installed: set<string>, category: string, dryRun: bool,
                             rank: map<string, nat>, skills: seq<SkillRecord>)
    requires Ranked(m, rank) && SkillsByCategory(m, category) == Found(skills)
    ensures var r := InstallEach(m, sources, installed, Names(skills), dryRun, rank);
      CategoryInstall(m, sources, installed, category, dryRun, rank) == (CountTrue(r.0) == |r.0|, r.1)
  {
  }

  /** An unknown category installs nothing; a known one reports success exactly when each of its installs succeeded. */
  lemma CategoryInstallFacts(m: Manifest, sources: set<string>, installed: set<string>, category: string, dryRun: bool,
                             rank: map<string, nat>, skills: seq<SkillRecord>)
    requires Ranked(m, rank)
    ensures (forall c :: c in m ==> c.name != category) ==> CategoryInstall(m, sources, installed, category, dryRun, rank) == (false, installed)
    ensures SkillsByCategory(m, category) == Found(skills) ==>
      (CategoryInstall(m, sources, installed, category, dryRun, rank).0 <==>
       forall i :: 0 <= i < |skills| ==> InstallEach(m, sources, installed, Names(skills), dryRun, rank).0[i])
  {
    if SkillsByCategory(m, category) == Found(skills) {
      CategoryInstallFound(m, sources, installed, category, dryRun, rank, skills);
      CountTrueAll(InstallEach(m, sources, installed, Names(skills), dryRun, rank).0);
    }
  }

  /** The names of every manifest skill, category by category. */
  function AllNames(m: Manifest): (r: seq<string>) {
    if |m| == 0 then [] else AllNames(m[..|m| - 1]) + Names(m[|m| - 1].skills)
  }

  /** `sum(len(data["skills"]) ...)`. */
  function TotalSkills(m: Manifest): nat {
    if |m| == 0 then 0 else TotalSkills(m[..|m| - 1]) + |m[|m| - 1].skills|
  }

  lemma {:induction false} TotalSkillsCounts(m: Manifest)
    ensures TotalSkills(m) == |AllNames(m)|
    decreases |m|
  {
    if |m| > 0 {
      TotalSkillsCounts(m[..|m| - 1]);
    }
  }

  /** `install_all`: every skill installed in manifest order; success when the count reaches the total. */
  function AllInstall(m: Manifest, sources: set<string>, installed: set<string>, dryRun: bool,
                      rank: map<string, nat>): (bool, set<string>)
    requires Ranked(m, rank)
  {
    var r := InstallEach(m, sources, installed, AllNames(m), dryRun, rank);
    (CountTrue(r.0) == TotalSkills(m), r.1)
  }

  /** Installing everything succeeds exactly when each single install succeeded. */
  lemma AllInstallFacts(m: Manifest, sources: set<string>, installed: set<string>, dryRun: bool, rank: map<string, nat>)
    requires Ranked(m, rank)
    ensures AllInstall(m, sources, installed, dryRun, rank).0 <==>
      forall i :: 0 <= i < |AllNames(m)| ==> InstallEach(m, sources, installed, AllNames(m), dryRun, rank).0[i]
  {
    TotalSkillsCounts(m);
    var r := InstallEach(m, sources, installed, AllNames(m), dryRun, rank);
    CountTrueAll(r.0);
    assert |r.0| == |AllNames(m)| == TotalSkills(m);
    assert AllInstall(m, sources, installed, dryRun, rank).0 == (CountTrue(r.0) == TotalSkills(m));
    assert AllInstall(m, sources, installed, dryRun, rank).0 <==> forall i :: 0 <= i < |r.0| ==> r.0[i];
    assert r.0 == InstallEach(m, sources, installed, AllNames(m), dryRun, rank).0;
  }

  // ---------------------------------------------------------------- report

  /** `verify_installation`: every manifest skill, mapped to whether it is installed. */
  function VerifyInstallation(m: Manifest, installed: set<string>): map<string, bool> {
    map name | name in AllSkillNames(m) :: name in installed
  }

  /** After a real successful install, the report shows the skill and its dependencies as installed. */
  lemma VerifyAfterInstall(m: Manifest, sources: set<string>, installed: set<string>, name: string, rank: map<string, nat>)
    requires Ranked(m, rank)
    requires Install(m, sources, installed, name, false, rank).0
    ensures var report := VerifyInstallation(m, Install(m, sources, installed, name, false, rank).1);
      name in report && report[name]
      && forall d :: d in Deps(m, name) ==> d in report && report[d]
  {
    InstallFacts(m, sources, installed, name, false, rank);
    KnownIsListed(m, name);
    forall d | d in Deps(m, name)
      ensures d in AllSkillNames(m)
    {
      KnownIsListed(m, d);
    }
  }

  /** The report covers exactly the manifest's skills, whatever is installed. */
  lemma VerifyCoversManifest(m: Manifest, installed: set<string>)
    ensures VerifyInstallation(m, installed).Keys == AllSkillNames(m)
    ensures forall name :: name in AllSkillNames(m) ==> (VerifyInstallation(m, installed)[name] <==> name in installed)
  {
  }

  // ---------------------------------------------------------------- the installer

  /** `SkillInstaller`, with the manifest, the existing source files and the installed skills. */
  class SkillInstaller {
    const manifest: Manifest
    const sources: set<string>
    var installed: set<string>

    constructor(manifest: Manifest, sources: set<string>, installed: set<string>)
      ensures this.manifest == manifest && this.sources == sources && this.installed == installed
    {
      this.manifest := manifest;
      this.sources := sources;
      this.installed := installed;
    }

    /** `install_skill`. */
    method InstallSkill(name: string, dryRun: bool, ghost rank: map<string, nat>) returns (ok: bool)
      requires Ranked(manifest, rank)
      modifies this
      ensures (ok, installed) == Install(manifest, sources, old(installed), name, dryRun, rank)
      decreases Rank(manifest, rank, name)
    {
      var info := GetSkillInfo(manifest, name);
      if info.None? {
        return false;
      }
      if info.value.record.file !in sources {
        return false;
      }
      if dryRun {
        return true;
      }
      var deps := info.value.record.dependencies;
      var k := 0;
      while k < |deps|
        invariant 0 <= k <= |deps| && deps == Deps(manifest, name)
        invariant InstallDeps(manifest, sources, old(installed), name, 0, dryRun, rank)
          == InstallDeps(manifest, sources, installed, name, k, dryRun, rank)
      {
        assert Rank(manifest, rank, deps[k]) < Rank(manifest, rank, name);
        var depOk := InstallSkill(deps[k], dryRun, rank);
        if !depOk {
          return false;
        }
        k := k + 1;
      }
      installed := installed + {name};
      ok := true;
    }

    /** The loop over one category's skills shared by `install_category` and `install_all`. */
    method InstallNames(names: seq<string>, dryRun: bool, ghost rank: map<string, nat>) returns (count: int)
      requires Ranked(manifest, rank)
      modifies this
      ensures count == CountTrue(InstallEach(manifest, sources, old(installed), names, dryRun, rank).0)
      ensures installed == InstallEach(manifest, sources, old(installed), names, dryRun, rank).1
    {
      ghost var start := installed;
      ghost var run: (seq<bool>, set<string>) := ([], installed);
      count := 0;
      for i := 0 to |names|
        invariant run == InstallEach(manifest, sources, start, names[..i], dryRun, rank)
        invariant count == CountTrue(run.0) && installed == run.1
      {
        var one := InstallSkill(names[i], dryRun, rank);
        InstallNamesStep(manifest, sources, start, names, i, run, one, installed, dryRun, rank);
        run := (run.0 + [one], installed);
        if one {
          count := count + 1;
        }
      }
      assert names[..|names|] == names;
    }

    /** `install_category`. */
    method InstallCategory(category: string, dryRun: bool, ghost rank: map<string, nat>) returns (ok: bool)
      requires Ranked(manifest, rank)
      modifies this
      ensures (ok, installed) == CategoryInstall(manifest, sources, old(installed), category, dryRun, rank)
    {
      var lookup := SkillsByCategory(manifest, category);
      if lookup.UnknownCategory? {
        return false;
      }
      var successCount := InstallNames(Names(lookup.skills), dryRun, rank);
      ok := successCount == |lookup.skills|;
    }

    /** `install_all`. */
    method InstallAll(dryRun: bool, ghost rank: map<string, nat>) returns (ok: bool)
      requires Ranked(manifest, rank)
      modifies this
      ensures (ok, installed) == AllInstall(manifest, sources, old(installed), dryRun, rank)
    {
      ghost var start := installed;
      ghost var run: (seq<bool>, set<string>) := ([], installed);
      var successCount := 0;
      var totalSkills := TotalSkills(manifest);
      var c := 0;
      while c < |manifest|
        invariant 0 <= c <= |manifest|
        invariant run == InstallEach(manifest, sources, start, AllNames(manifest[..c]), dryRun, rank)
        invariant successCount == CountTrue(run.0) && installed == run.1
      {
        ghost var more := InstallEach(manifest, sources, installed, Names(manifest[c].skills), dryRun, rank);
        var count := InstallNames(Names(manifest[c].skills), dryRun, rank);
        InstallAllStep(manifest, sources, start, c, run, more, dryRun, rank);
        run := (run.0 + more.0, installed);
        successCount := successCount + count;
        c := c + 1;
      }
      assert manifest[..|manifest|] == manifest;
      ok := successCount == totalSkills;
    }

    /** `uninstall_skill`: fails when the skill is not installed, otherwise removes it. */
    method UninstallSkill(name: string) returns (ok: bool)
      modifies this
      ensures ok <==> name in old(installed)
      ensures installed == old(installed) - {name}
    {
      if name !in installed {
        return false;
      }
      installed := installed - {name};
      ok := true;
    }

    /** `verify_installation` on the current state. */
    function Report(): map<string, bool>
      reads this
    {
      VerifyInstallation(manifest, installed)
    }
  }

  /** The meta skills: only the recommendation engine depends on anything, and only on the extractor. */
  lemma MetaDependencies()
    ensures forall r :: r in MetaSkills() ==> PlainDependencies(r)
  {
  }

  /** The development skills depend on nothing. */
  lemma DevelopmentDependencies()
    ensures forall r :: r in DevelopmentSkills() ==> r.dependencies == []
  {
  }

  /** The git skills depend on nothing. */
  lemma GitDependencies()
    ensures forall r :: r in GitSkills() ==> r.dependencies == []
  {
  }

  /** The analysis skills depend on nothing. */
  lemma AnalysisDependencies()
    ensures forall r :: r in AnalysisSkills() ==> r.dependencies == []
  {
  }

  /** The rank that puts the recommendation engine above every other skill. */
  function EngineRank(m: Manifest): map<string, nat> {
    map name | name in AllSkillNames(m) :: if name == "skill-recommendation-engine" then 1 else 0
  }

  /** A manifest whose only dependency is the engine's on the extractor is acyclic. */
  lemma RankedByDependencies(m: Manifest)
    requires forall c, r :: c in m && r in c.skills ==> PlainDependencies(r)
    ensures Ranked(m, EngineRank(m))
  {
    var rank := EngineRank(m);
    forall name | Known(m, name)
      ensures name in rank && forall d :: d in Deps(m, name) && Known(m, d) ==> d in rank && rank[d] < rank[name]
    {
      KnownIsListed(m, name);
      GetSkillInfoFacts(m, name);
      var info := GetSkillInfo(m, name).value;
      var c :| c in m && c.name == info.category && HasSkill(c, name) && info.record == FindIn(c.skills, name).value;
      assert info.record in c.skills && PlainDependencies(info.record);
      forall d | d in Deps(m, name) && Known(m, d)
        ensures d in rank && rank[d] < rank[name]
      {
        KnownIsListed(m, d);
        assert d == "skill-extractor";
      }
    }
  }

  /** A four-category manifest whose every category has plain dependencies has them throughout. */
  lemma PlainByCategory(m: Manifest)
    requires |m| == 4
    requires forall i, r :: 0 <= i < 4 && r in m[i].skills ==> PlainDependencies(r)
    ensures forall c, r :: c in m && r in c.skills ==> PlainDependencies(r)
  {
    forall c, r | c in m && r in c.skills
      ensures PlainDependencies(r)
    {
      var i :| 0 <= i < 4 && m[i] == c;
    }
  }

  /** Every category of the shipped manifest has plain dependencies. */
  lemma SkillsManifestPlain()
    ensures forall i, r :: 0 <= i < 4 && r in SkillsManifest()[i].skills ==> PlainDependencies(r)
  {
    forall i, r | 0 <= i < 4 && r in SkillsManifest()[i].skills
      ensures PlainDependencies(r)
    {
      if i == 0 {
        MetaDependencies();
      } else if i == 1 {
        DevelopmentDependencies();
      } else if i == 2 {
        GitDependencies();
      } else {
        AnalysisDependencies();
      }
    }
  }

  /** The shipped manifest is acyclic: the engine's rank orders every install. */
  lemma SkillsManifestRanked()
    ensures Ranked(SkillsManifest(), EngineRank(SkillsManifest()))
  {
    SkillsManifestPlain();
    PlainByCategory(SkillsManifest());
    RankedByDependencies(SkillsManifest());
  }
}
