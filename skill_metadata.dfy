/**
 * The skill catalog: records built from the hard-coded install manifest, the
 * analysis subcategory inferred from each file path, a loader that caches the
 * catalog, and lookup, filtering and keyword search over it.
 *
 * A Python dict keeps insertion order; the catalog is a sequence of records
 * with distinct names, and `d[k] = v` is `Put`.
 */
module SkillMetadata {
  import opened Wrappers
  import opened Text

  datatype Skill = Skill(
    name: string,
    category: string,
    description: string,
    priority: string,
    dependencies: seq<string>,
    filePath: string,
    tokenEstimate: int,
    features: seq<string>,
    useCases: seq<string>,
    qualityScore: real)

  /** One skill entry of a manifest category. */
  datatype ManifestEntry = ManifestEntry(
    name: string, file: string, description: string, priority: string, dependencies: seq<string>)

  datatype ManifestCategory = ManifestCategory(name: string, description: string, skills: seq<ManifestEntry>)

  /** The manifest the loader carries, in its dict order. */
  function Manifest(): seq<ManifestCategory> {
    [ ManifestCategory("meta", "Meta-skills for workflow management and automation", [
        ManifestEntry("session-snapshot", "skills/meta/session-snapshot/SKILL.md",
          "Complete session context management", "high", []),
        ManifestEntry("skill-extractor", "skills/meta/skill-extractor/SKILL.md",
          "Automated skill discovery and documentation", "high", []),
        ManifestEntry("skill-recommendation-engine", "skills/meta/skill-recommendation-engine/SKILL.md",
          "Context-aware skill recommendations", "medium", ["skill-extractor"]),
        ManifestEntry("claude-startup-integration", "skills/meta/claude-startup-integration/SKILL.md",
          "Startup configuration and optimization", "medium", []),
        ManifestEntry("startup-skill-showcase", "skills/meta/startup-skill-showcase/SKILL.md",
          "Interactive skill demonstration and showcase", "medium", []),
        ManifestEntry("manifest-generator", "skills/meta/manifest-generator/SKILL.md",
          "Generate and manage skill manifests", "low", [])]),
      ManifestCategory("development", "Core development and coding skills", [
        ManifestEntry("lean-plan", "skills/development/lean-plan/SKILL.md",
          "Token-efficient planning mode for complex tasks", "high", []),
        ManifestEntry("quick-test-runner", "skills/development/quick-test-runner/SKILL.md",
          "Fast test execution and validation workflows", "high", []),
        ManifestEntry("refactoring", "skills/development/refactoring/SKILL.md",
          "Code restructuring and modernization workflows", "medium", [])]),
      ManifestCategory("git", "Git and version control utilities", [
        ManifestEntry("diff-summariser", "skills/git/diff-summariser/SKILL.md",
          "Summarize git diffs for code review", "high", []),
        ManifestEntry("migrate-repo", "skills/git/migrate-repo/SKILL.md",
          "Transfer repositories between accounts/orgs", "medium", []),
        ManifestEntry("repo-briefing", "skills/git/repo-briefing/SKILL.md",
          "Generate compact repository summaries", "medium", [])]),
      ManifestCategory("analysis", "Code analysis and debugging tools", [
        ManifestEntry("api-contract-sniffer", "skills/analysis/code/api-contract-sniffer/SKILL.md",
          "Detect API contract violations and inconsistencies", "high", []),
        ManifestEntry("dead-code-hunter", "skills/analysis/code/dead-code-hunter/SKILL.md",
          "Find unused functions, imports, and dead code", "high", []),
        ManifestEntry("dependency-audit", "skills/analysis/code/dependency-audit/SKILL.md",
          "Check for outdated and vulnerable dependencies", "high", []),
        ManifestEntry("ascii-sanitizer", "skills/analysis/code/ascii-sanitizer/SKILL.md",
          "Detect and remove unsafe Unicode/emoji characters", "medium", []),
        ManifestEntry("anti-pattern-sniffer", "skills/analysis/formal/anti-pattern-sniffer/SKILL.md",
          "Detect proof anti-patterns in formal verification", "medium", []),
        ManifestEntry("lemma-dependency-graph", "skills/analysis/formal/lemma-dependency-graph/SKILL.md",
          "Visualize proof dependencies and relationships", "medium", []),
        ManifestEntry("proof-obligations-snapshot", "skills/analysis/formal/proof-obligations-snapshot/SKILL.md",
          "Track unproven obligations in formal systems", "medium", []),
        ManifestEntry("tactic-usage-count", "skills/analysis/formal/tactic-usage-count/SKILL.md",
          "Analyze proof tactics usage patterns", "low", []),
        ManifestEntry("quantum-circuit-optimizer", "skills/analysis/quantum/quantum-circuit-optimizer/SKILL.md",
          "Optimize quantum circuits by reducing gate count and depth", "medium", [])])
    ]
  }

  /** Token estimates per skill name. */
  function TokenEstimates(): map<string, int> {
    map[
      "api-contract-sniffer" := 500, "ascii-sanitizer" := 600, "dead-code-hunter" := 1000,
      "dependency-audit" := 600, "anti-pattern-sniffer" := 800, "lemma-dependency-graph" := 1000,
      "proof-obligations-snapshot" := 700, "tactic-usage-count" := 600,
      "quantum-circuit-optimizer" := 800, "lean-plan" := 1200, "quick-test-runner" := 300,
      "refactoring" := 1500, "diff-summariser" := 400, "migrate-repo" := 800,
      "repo-briefing" := 1000, "session-snapshot" := 400, "skill-extractor" := 1200,
      "skill-recommendation-engine" := 800, "claude-startup-integration" := 600,
      "startup-skill-showcase" := 500, "manifest-generator" := 700]
  }

  /** `token_estimates.get(name, 1000)`. */
  function EstimateOf(est: map<string, int>, name: string): int {
    if name in est then est[name] else 1000
  }

  /**
   * The full category of a manifest entry: an "analysis" entry is refined by the
   * first of "/code/", "/formal/", "/quantum/" found in its file path.
   */
  function FullCategory(category: string, file: string): (r: string)
    ensures category != "analysis" ==> r == category
    ensures category == "analysis" ==> r in {"analysis", "analysis/code", "analysis/formal", "analysis/quantum"}
    ensures category == "analysis" ==> (r == "analysis/code" <==> Contains(file, "/code/"))
    ensures category == "analysis" ==>
      (r == "analysis/formal" <==> !Contains(file, "/code/") && Contains(file, "/formal/"))
    ensures category == "analysis" ==>
      (r == "analysis/quantum" <==> !Contains(file, "/code/") && !Contains(file, "/formal/") && Contains(file, "/quantum/"))
  {
    if category == "analysis" then
      if Contains(file, "/code/") then "analysis/code"
      else if Contains(file, "/formal/") then "analysis/formal"
      else if Contains(file, "/quantum/") then "analysis/quantum"
      else category
    else category
  }

  /** The record the loader builds for one manifest entry. */
  function Record(category: string, e: ManifestEntry, est: map<string, int>): Skill {
    Skill(e.name, FullCategory(category, e.file), e.description, e.priority, e.dependencies,
      e.file, EstimateOf(est, e.name), [], [], 0.8)
  }

  /** The keys of the dict. */
  function Names(d: seq<Skill>): (r: set<string>)
    ensures forall t :: t in d ==> t.name in r
  {
    if |d| == 0 then {} else {d[0].name} + Names(d[1..])
  }

  /** Distinct records have distinct names, as dict keys do. */
  predicate UniqueNames(d: seq<Skill>) {
    |d| == 0 || (d[0].name !in Names(d[1..]) && UniqueNames(d[1..]))
  }

  /** `d[s.name] = s`: replaces the record of that name in place, or appends. */
  function Put(d: seq<Skill>, s: Skill): (r: seq<Skill>)
    ensures s in r
    ensures Names(r) == Names(d) + {s.name}
    ensures forall t :: t in r ==> t == s || t in d
    ensures UniqueNames(d) ==> UniqueNames(r)
    ensures forall t :: t in d && t.name != s.name ==> t in r
  {
    if |d| == 0 then [s]
    else if d[0].name == s.name then
      assert ([s] + d[1..])[1..] == d[1..];
      [s] + d[1..]
    else
      var rest := Put(d[1..], s);
      assert ([d[0]] + rest)[1..] == rest;
      assert forall t :: t in d ==> t == d[0] || t in d[1..];
      [d[0]] + rest
  }

  /** Adds the records of one category's entries, in order. */
  function AddEntries(d: seq<Skill>, category: string, entries: seq<ManifestEntry>, est: map<string, int>): seq<Skill>
    decreases |entries|
  {
    if |entries| == 0 then d
    else Put(AddEntries(d, category, entries[..|entries| - 1], est), Record(category, entries[|entries| - 1], est))
  }

  /** Adds the records of every category, in order. */
  function AddCategories(d: seq<Skill>, cats: seq<ManifestCategory>, est: map<string, int>): seq<Skill>
    decreases |cats|
  {
    if |cats| == 0 then d
    else
      var last := cats[|cats| - 1];
      AddEntries(AddCategories(d, cats[..|cats| - 1], est), last.name, last.skills, est)
  }

  function BuildCatalog(m: seq<ManifestCategory>, est: map<string, int>): seq<Skill> {
    AddCategories([], m, est)
  }

  predicate FromEntry(s: Skill, m: seq<ManifestCategory>, est: map<string, int>) {
    exists i, j :: 0 <= i < |m| && 0 <= j < |m[i].skills| && s == Record(m[i].name, m[i].skills[j], est)
  }

  lemma {:induction false} AddEntriesUnique(d: seq<Skill>, category: string, entries: seq<ManifestEntry>, est: map<string, int>)
    requires UniqueNames(d)
    ensures UniqueNames(AddEntries(d, category, entries, est))
    decreases |entries|
  {
    if |entries| > 0 {
      AddEntriesUnique(d, category, entries[..|entries| - 1], est);
    }
  }

  lemma {:induction false} AddEntriesGrows(d: seq<Skill>, category: string, entries: seq<ManifestEntry>, est: map<string, int>)
    ensures Names(d) <= Names(AddEntries(d, category, entries, est))
    decreases |entries|
  {
    if |entries| > 0 {
      AddEntriesGrows(d, category, entries[..|entries| - 1], est);
    }
  }

  lemma {:induction false} AddEntriesHas(d: seq<Skill>, category: string, entries: seq<ManifestEntry>, est: map<string, int>, j: int)
    requires 0 <= j < |entries|
    ensures entries[j].name in Names(AddEntries(d, category, entries, est))
    decreases |entries|
  {
    var init := entries[..|entries| - 1];
    var r := Record(category, entries[|entries| - 1], est);
    var after := Put(AddEntries(d, category, init, est), r);
    assert AddEntries(d, category, entries, est) == after;
    if j < |init| {
      AddEntriesHas(d, category, init, est, j);
      assert entries[j] == init[j];
    } else {
      assert r in after;
    }
  }

  lemma AddEntriesNames(d: seq<Skill>, category: string, entries: seq<ManifestEntry>, est: map<string, int>)
    ensures Names(d) <= Names(AddEntries(d, category, entries, est))
    ensures forall j :: 0 <= j < |entries| ==> entries[j].name in Names(AddEntries(d, category, entries, est))
  {
    AddEntriesGrows(d, category, entries, est);
    forall j | 0 <= j < |entries| ensures entries[j].name in Names(AddEntries(d, category, entries, est)) {
      AddEntriesHas(d, category, entries, est, j);
    }
  }

  lemma {:induction false} AddEntriesOrigin(d: seq<Skill>, category: string, entries: seq<ManifestEntry>, est: map<string, int>)
    ensures forall s :: s in AddEntries(d, category, entries, est) ==>
      s in d || exists j :: 0 <= j < |entries| && s == Record(category, entries[j], est)
    decreases |entries|
  {
    if |entries| > 0 {
      var init := entries[..|entries| - 1];
      AddEntriesOrigin(d, category, init, est);
      forall s | s in AddEntries(d, category, entries, est)
        ensures s in d || exists j :: 0 <= j < |entries| && s == Record(category, entries[j], est)
      {
        if s != Record(category, entries[|entries| - 1], est) && s !in d {
          var j :| 0 <= j < |init| && s == Record(category, init[j], est);
          assert entries[j] == init[j];
        }
      }
    }
  }

  lemma {:induction false} AddCategoriesUnique(d: seq<Skill>, cats: seq<ManifestCategory>, est: map<string, int>)
    requires UniqueNames(d)
    ensures UniqueNames(AddCategories(d, cats, est))
    decreases |cats|
  {
    if |cats| > 0 {
      AddCategoriesUnique(d, cats[..|cats| - 1], est);
      AddEntriesUnique(AddCategories(d, cats[..|cats| - 1], est), cats[|cats| - 1].name, cats[|cats| - 1].skills, est);
    }
  }

  lemma {:induction false} AddCategoriesNames(d: seq<Skill>, cats: seq<ManifestCategory>, est: map<string, int>)
    ensures forall i, j :: 0 <= i < |cats| && 0 <= j < |cats[i].skills| ==>
      cats[i].skills[j].name in Names(AddCategories(d, cats, est))
    decreases |cats|
  {
    if |cats| > 0 {
      var init := cats[..|cats| - 1];
      var last := cats[|cats| - 1];
      AddCategoriesNames(d, init, est);
      AddEntriesNames(AddCategories(d, init, est), last.name, last.skills, est);
      assert forall i :: 0 <= i < |init| ==> cats[i] == init[i];
    }
  }

  lemma {:induction false} AddCategoriesOrigin(d: seq<Skill>, cats: seq<ManifestCategory>, est: map<string, int>)
    ensures forall s :: s in AddCategories(d, cats, est) ==> s in d || FromEntry(s, cats, est)
    decreases |cats|
  {
    if |cats| > 0 {
      var init := cats[..|cats| - 1];
      var last := cats[|cats| - 1];
      var before := AddCategories(d, init, est);
      AddCategoriesOrigin(d, init, est);
      AddEntriesOrigin(before, last.name, last.skills, est);
      forall s | s in AddCategories(d, cats, est) ensures s in d || FromEntry(s, cats, est) {
        if s !in before {
          var j :| 0 <= j < |last.skills| && s == Record(last.name, last.skills[j], est);
          assert s == Record(cats[|cats| - 1].name, cats[|cats| - 1].skills[j], est);
        } else if s !in d {
          var i, j :| 0 <= i < |init| && 0 <= j < |init[i].skills| && s == Record(init[i].name, init[i].skills[j], est);
          assert init[i] == cats[i];
        }
      }
    }
  }

  /**
   * The built catalog has one record per manifest skill name, and every record is
   * the one built from a manifest entry: its name is the entry's key, its category
   * the inferred full category, its token estimate the table's or 1000.
   */
  lemma CatalogFacts(m: seq<ManifestCategory>, est: map<string, int>)
    ensures UniqueNames(BuildCatalog(m, est))
    ensures forall i, j :: 0 <= i < |m| && 0 <= j < |m[i].skills| ==>
      m[i].skills[j].name in Names(BuildCatalog(m, est))
    ensures forall s :: s in BuildCatalog(m, est) ==>
      (exists i, j :: 0 <= i < |m| && 0 <= j < |m[i].skills| &&
                s.name == m[i].skills[j].name &&
                s.category == FullCategory(m[i].name, m[i].skills[j].file) &&
                s.tokenEstimate == EstimateOf(est, s.name) &&
                s.features == [] && s.useCases == [] && s.qualityScore == 0.8)
  {
    AddCategoriesUnique([], m, est);
    AddCategoriesNames([], m, est);
    AddCategoriesOrigin([], m, est);
    forall s | s in BuildCatalog(m, est)
      ensures (exists i, j :: 0 <= i < |m| && 0 <= j < |m[i].skills| &&
                s.name == m[i].skills[j].name &&
                s.category == FullCategory(m[i].name, m[i].skills[j].file) &&
                s.tokenEstimate == EstimateOf(est, s.name) &&
                s.features == [] && s.useCases == [] && s.qualityScore == 0.8)
    {
      assert FromEntry(s, m, est);
    }
  }

  /** `skills.get(name)`. */
  function Find(d: seq<Skill>, name: string): (r: Option<Skill>)
    ensures r.None? <==> name !in Names(d)
    ensures r.Some? ==> r.value in d && r.value.name == name
  {
    if |d| == 0 then None
    else if d[0].name == name then Some(d[0])
    else Find(d[1..], name)
  }

  /** In a catalog with distinct names, a lookup by name finds exactly the record of that name. */
  lemma {:induction false} FindExactly(d: seq<Skill>, s: Skill)
    requires UniqueNames(d)
    ensures Find(d, s.name) == Some(s) <==> s in d
  {
    if |d| > 0 && d[0] != s {
      FindExactly(d[1..], s);
      if s in d {
        assert s in d[1..];
      }
    }
  }

  predicate InCategory(s: Skill, category: string) {
    s.category == category || StartsWith(s.category, category + "/")
  }

  /** `filter_by_category`: the records whose category is `category` or lies below it. */
  function FilterByCategory(d: seq<Skill>, category: string): (r: seq<Skill>)
    ensures |r| <= |d|
    ensures forall s :: s in r <==> s in d && (s.category == category || StartsWith(s.category, category + "/"))
  {
    if |d| == 0 then []
    else (if InCategory(d[0], category) then [d[0]] else []) + FilterByCategory(d[1..], category)
  }

  /** `filter_by_priority`: the records with exactly that priority. */
  function FilterByPriority(d: seq<Skill>, priority: string): (r: seq<Skill>)
    ensures |r| <= |d|
    ensures forall s :: s in r <==> s in d && s.priority == priority
  {
    if |d| == 0 then []
    else (if d[0].priority == priority then [d[0]] else []) + FilterByPriority(d[1..], priority)
  }

  predicate Matches(s: Skill, keyword: string) {
    Contains(Lower(s.name), Lower(keyword)) || Contains(Lower(s.description), Lower(keyword))
  }

  /** `search_by_keyword`: case-insensitive substring search in name or description. */
  function SearchByKeyword(d: seq<Skill>, keyword: string): (r: seq<Skill>)
    ensures |r| <= |d|
    ensures forall s :: s in r <==>
      s in d && (Contains(Lower(s.name), Lower(keyword)) || Contains(Lower(s.description), Lower(keyword)))
  {
    if |d| == 0 then []
    else (if Matches(d[0], keyword) then [d[0]] else []) + SearchByKeyword(d[1..], keyword)
  }

  /** A subcategory record is found by filtering on its parent category. */
  lemma FilterByParentCategory(d: seq<Skill>, s: Skill, parent: string, child: string)
    requires s in d && s.category == parent + "/" + child
    ensures s in FilterByCategory(d, parent)
  {
    assert s.category[..|parent + "/"|] == parent + "/";
  }

  /** Any keyword found in a record's (lowercased) name finds that record. */
  lemma SearchFindsName(d: seq<Skill>, s: Skill, pre: string, post: string)
    requires s in d && Lower(s.name) == pre + post
    ensures s in SearchByKeyword(d, post)
  {
    assert Lower(post) == post by {
      forall i | 0 <= i < |post| ensures Lower(post)[i] == post[i] {
        assert post[i] == Lower(s.name)[|pre| + i];
        assert LowerChar(LowerChar(s.name[|pre| + i])) == LowerChar(s.name[|pre| + i]);
      }
    }
    ContainsInfix(pre, post, "");
    assert pre + post + "" == Lower(s.name);
  }

  /** The inner loop of `load_all_skills`: the records of one category, in order. */
  method AddCategorySkills(skills0: seq<Skill>, category: string, entries: seq<ManifestEntry>, est: map<string, int>)
    returns (skills: seq<Skill>)
    ensures skills == AddEntries(skills0, category, entries, est)
  {
    skills := skills0;
    var j := 0;
    while j < |entries|
      invariant 0 <= j <= |entries|
      invariant skills == AddEntries(skills0, category, entries[..j], est)
    {
      var e := entries[j];
      skills := Put(skills, Skill(e.name, FullCategory(category, e.file), e.description, e.priority,
        e.dependencies, e.file, EstimateOf(est, e.name), [], [], 0.8));
      assert entries[..j + 1][..j] == entries[..j];
      j := j + 1;
    }
    assert entries[..|entries|] == entries;
  }

  /** The outer loop of `load_all_skills` that fills the dict, category by category. */
  method BuildSkills(manifest: seq<ManifestCategory>, est: map<string, int>) returns (skills: seq<Skill>)
    ensures skills == BuildCatalog(manifest, est)
  {
    skills := [];
    var i := 0;
    while i < |manifest|
      invariant 0 <= i <= |manifest|
      invariant skills == AddCategories([], manifest[..i], est)
    {
      skills := AddCategorySkills(skills, manifest[i].name, manifest[i].skills, est);
      assert manifest[..i + 1][..i] == manifest[..i];
      i := i + 1;
    }
    assert manifest[..|manifest|] == manifest;
  }

  /**
   * The loader with its cache field. The manifest and token estimates it reads
   * from the repository are given to the constructor; in the repository they
   * are `Manifest()` and `TokenEstimates()`.
   */
  class SkillMetadataLoader {
    const manifest: seq<ManifestCategory>
    const estimates: map<string, int>
    var cache: Option<seq<Skill>>

    constructor(manifest: seq<ManifestCategory>, estimates: map<string, int>)
      ensures this.manifest == manifest && this.estimates == estimates && cache == None
    {
      this.manifest := manifest;
      this.estimates := estimates;
      cache := None;
    }

    /** The catalog `load_all_skills` builds. */
    function Catalog(): seq<Skill> {
      BuildCatalog(manifest, estimates)
    }

    /** `load_all_skills`: builds the catalog once, then returns the cached one. */
    method LoadAllSkills() returns (skills: seq<Skill>)
      modifies this
      ensures old(cache).Some? ==> skills == old(cache).value && cache == old(cache)
      ensures old(cache).None? ==> skills == Catalog() && cache == Some(skills)
    {
      if cache.None? {
        var built := BuildSkills(manifest, estimates);
        cache := Some(built);
      }
      skills := cache.value;
    }

    /** The state a loader is in once it has loaded: the cache holds the catalog. */
    ghost predicate Loaded()
      reads this
    {
      cache == Some(Catalog())
    }

    /** `get_skill`. */
    method GetSkill(name: string) returns (r: Option<Skill>)
      requires cache.None? || Loaded()
      modifies this
      ensures Loaded() && r == Find(Catalog(), name)
    {
      var skills := LoadAllSkills();
      r := Find(skills, name);
    }

    /** `filter_by_category`. */
    method FilterCategory(category: string) returns (r: seq<Skill>)
      requires cache.None? || Loaded()
      modifies this
      ensures Loaded() && r == FilterByCategory(Catalog(), category)
    {
      var skills := LoadAllSkills();
      r := FilterByCategory(skills, category);
    }

    /** `filter_by_priority`. */
    method FilterPriority(priority: string) returns (r: seq<Skill>)
      requires cache.None? || Loaded()
      modifies this
      ensures Loaded() && r == FilterByPriority(Catalog(), priority)
    {
      var skills := LoadAllSkills();
      r := FilterByPriority(skills, priority);
    }

    /** `search_by_keyword`. */
    method Search(keyword: string) returns (r: seq<Skill>)
      requires cache.None? || Loaded()
      modifies this
      ensures Loaded() && r == SearchByKeyword(Catalog(), keyword)
    {
      var skills := LoadAllSkills();
      r := SearchByKeyword(skills, keyword);
    }
  }
}
