# Skill recommendation engine, validators and installer

This project is a Dafny model of the decision logic in a repository of
skills (named, reusable task procedures), with proofs about it. It covers three groups of code.

The first is the **skill recommendation engine**. Its parts are:

- a catalog of skill records built from a fixed manifest;
- a table of skill utilities;
- classifiers for the working context (git porcelain status, file types, project type, activity, token budget);
- classifiers for the project state (age, test coverage, dependency counts, security heuristics, documentation, complexity);
- a store of user preferences and feedback;
- a confidence scorer with its buckets;
- the orchestrator, which filters, scores, sorts, truncates, explains and summarises recommendations.

The second is the **format validators**. These are the checks the test harness runs on:

- snapshots, skill files and manifests;
- the frontmatter split;
- the mock session transcript.

It also includes the skill validation suite: the structure, content, parameter-table and example checks, the quality score, validity and the report totals.

The third is the **tools**:

- the manifest generator: frontmatter parsing, categorisation, token estimates, the scan filter, quick reference, and the catalog grouping and ordering;
- the installer: manifest lookup, the dependency-first install recursion, category and full installs, uninstall and verification.

Every module follows one source file:

- `skill_metadata.dfy`
- `skill_utility.dfy`
- `context_analyzer.dfy`
- `project_analyzer.dfy`
- `user_patterns.dfy`
- `confidence_scorer.dfy`
- `recommender.dfy`
- `skill_executor.dfy`
- `validate_skills.dfy`
- `manifest_generator.dfy`
- `installer.dfy`

Three helper modules model the Python built-ins these files rely on:

- `wrappers.dfy` holds `Option`.
- `text.dfy` holds `strip`, `lower`, `split`, `join`, `int()` parsing, substring search and `Path.suffix`.
- `sorting.dfy` holds code-point string order, stable insertion sorts (`sorted`, `list.sort`) and the sorted list of a set.

Where the source changes state in place, the model uses classes whose methods are proved against specification functions. These are the loader cache, the preference store, the mock session, the validator's result map and the installer's installed set. Loops that fill lists, dicts or sets are methods with loop invariants. Pure rule tables are functions, and lemmas state their properties.

Scores are `real`, so decimal constants such as 0.2 are exact.

Anything the code reads from the outside world is a parameter:

- subprocess results (`Raised` or `Completed(code, stdout)`);
- file texts, where `None` means missing or unreadable;
- marker-file flags, glob counts and file ages;
- the environment and the clock.

The installer's filesystem is two sets: the source files present and the skills installed.

Where the repository's documentation and the code disagree, the model follows the code:

- The documentation expects five consecutive successes to push a success rate above 0.9. The smoothing in `user_patterns.py` gives 1 - 0.5·0.8⁵ = 0.83616 (`UserPatterns.FiveSuccesses`).

Some behaviours look odd, but the code really does them, so they are modelled as written:

- The porcelain parser strips the whole output before splitting it. A leading space on the first line therefore shifts that line's path by one character (`ContextAnalyzer.StripShiftsFirstPath`).
- The orchestrator's category filter is exact, while the catalog's is a prefix match (`Recommender.CategoryFilterIsExact`).
- A dry-run install returns before visiting dependencies.
- The skill validator searches for the section headings exactly as its source spells them, which is as mis-decoded emoji. `ValidateSkills.SkillResult` and the validator class use those headings. The corrected validator is `ValidateSkills.IntendedSkillResult` (see Findings).
- Two branches of `validate_skills.py` can never fire (`ValidateSkills.OrderWarnings`, `ValidateSkills.ContentMessages`).
- The dependency counter strips a line before testing for "#", but the security check tests the raw line (`ProjectAnalyzer.IndentedCommentCountsAsUnpinned`).

## Model

| member | source | states |
|---|---|---|
| SkillMetadata.FullCategory | skills/meta/skill-recommendation-engine/lib/skill_metadata.py:266-274 | a non-"analysis" category is kept; an "analysis" entry becomes "analysis/code" exactly when its file path contains "/code/", "analysis/formal" exactly when it contains "/formal/" but not "/code/", "analysis/quantum" exactly when it contains only "/quantum/", and stays "analysis" otherwise |
| SkillMetadata.Put | skills/meta/skill-recommendation-engine/lib/skill_metadata.py:276 | assigning `skills[name]` adds the name to the keys, keeps every record of another name, adds no record but the new one, and keeps the keys distinct |
| SkillMetadata.AddEntriesOrigin | skills/meta/skill-recommendation-engine/lib/skill_metadata.py:264-287 | after one category's loop every record is either an earlier one or the record built from one of that category's entries |
| SkillMetadata.AddCategoriesNames | skills/meta/skill-recommendation-engine/lib/skill_metadata.py:263-287 | every skill name of every manifest category is a key of the dict the loops fill |
| SkillMetadata.AddCategoriesUnique | skills/meta/skill-recommendation-engine/lib/skill_metadata.py:263-287 | the loops keep one record per name, as a dict does |
| SkillMetadata.CatalogFacts | skills/meta/skill-recommendation-engine/lib/skill_metadata.py:259-290 | the loaded catalog has distinct names, contains every manifest skill, and each record carries its entry's name, the inferred full category, the token estimate from the table (1000 when absent), no features or use cases and quality 0.8 |
| SkillMetadata.Find | skills/meta/skill-recommendation-engine/lib/skill_metadata.py:303 | `get` returns None exactly when the name is not a key; otherwise a record of the catalog with that name |
| SkillMetadata.FindExactly | skills/meta/skill-recommendation-engine/lib/skill_metadata.py:292-303 | in a catalog with distinct names, looking up a record's name returns that record, and only catalog records are returned |
| SkillMetadata.FilterByCategory | skills/meta/skill-recommendation-engine/lib/skill_metadata.py:305-319 | a record is returned exactly when its category equals the argument or starts with the argument followed by "/" |
| SkillMetadata.FilterByParentCategory | skills/meta/skill-recommendation-engine/lib/skill_metadata.py:316-319 | filtering on a parent category finds every record of a subcategory of it |
| SkillMetadata.FilterByPriority | skills/meta/skill-recommendation-engine/lib/skill_metadata.py:321-332 | a record is returned exactly when its priority equals the argument |
| SkillMetadata.SearchByKeyword | skills/meta/skill-recommendation-engine/lib/skill_metadata.py:334-351 | a record is returned exactly when the keyword, lowercased in ASCII, occurs in its name or description lowercased the same way |
| SkillMetadata.SearchFindsName | skills/meta/skill-recommendation-engine/lib/skill_metadata.py:345-351 | any suffix of a record's lowercased name finds that record |
| SkillMetadata.AddCategorySkills | skills/meta/skill-recommendation-engine/lib/skill_metadata.py:264-287 | the inner loop leaves the dict the specification function gives for that category's entries |
| SkillMetadata.BuildSkills | skills/meta/skill-recommendation-engine/lib/skill_metadata.py:259-287 | the nested loops build exactly the catalog whose properties CatalogFacts proves |
| SkillMetadata.SkillMetadataLoader.constructor | skills/meta/skill-recommendation-engine/lib/skill_metadata.py:31-40 | a new loader holds its manifest and estimates and an empty cache |
| SkillMetadata.SkillMetadataLoader.LoadAllSkills | skills/meta/skill-recommendation-engine/lib/skill_metadata.py:249-290 | the first call builds the catalog and caches it; a later call returns the cached catalog and changes nothing |
| SkillMetadata.SkillMetadataLoader.GetSkill | skills/meta/skill-recommendation-engine/lib/skill_metadata.py:292-303 | loads (or reuses) the catalog and returns the lookup of the name in it |
| SkillMetadata.SkillMetadataLoader.FilterCategory | skills/meta/skill-recommendation-engine/lib/skill_metadata.py:305-319 | loads (or reuses) the catalog and returns its category filter |
| SkillMetadata.SkillMetadataLoader.FilterPriority | skills/meta/skill-recommendation-engine/lib/skill_metadata.py:321-332 | loads (or reuses) the catalog and returns its priority filter |
| SkillMetadata.SkillMetadataLoader.Search | skills/meta/skill-recommendation-engine/lib/skill_metadata.py:334-351 | loads (or reuses) the catalog and returns its keyword search |
| SkillUtility.Clamp | skills/meta/skill-recommendation-engine/lib/skill_utility.py:246 | `max(0.0, min(1.0, x))` lies in [0, 1], leaves values already in [0, 1] alone and sends values below to 0 and above to 1 |
| SkillUtility.BaseUtilitiesBounded | skills/meta/skill-recommendation-engine/lib/skill_utility.py:36-202 | every facet of every tabled utility lies in [0, 1], as the field comments promise |
| SkillUtility.GetUtilityScore | skills/meta/skill-recommendation-engine/lib/skill_utility.py:204-225 | a known skill gets its tabled utility, any other the default (0.5, 0.7, 0.6, 0.7, 0.7); either way every facet lies in [0, 1] |
| SkillUtility.TokenEfficiency | skills/meta/skill-recommendation-engine/lib/skill_utility.py:227-246 | the efficiency always lies in [0, 1] |
| SkillUtility.TokenEfficiencyPoints | skills/meta/skill-recommendation-engine/lib/skill_utility.py:243-246 | the documented points hold (300 tokens give 0.9, 1500 give 0.5, 3000 or more give 0), non-positive estimates give 1, and in between it is 1 - tokens/3000 |
| SkillUtility.TokenEfficiencyAntitone | skills/meta/skill-recommendation-engine/lib/skill_utility.py:243-246 | more tokens never give a higher efficiency |
| SkillUtility.TokenEfficiencyUsesRecord | skills/meta/skill-recommendation-engine/lib/skill_utility.py:238-241 | when a metadata record is given, its token estimate is used and the separate argument is ignored |
| SkillUtility.EstimateTimeSavings | skills/meta/skill-recommendation-engine/lib/skill_utility.py:248-283 | the estimate lies in [0, 1], and a known skill gets its tabled time savings |
| SkillUtility.TimeSavingsFallbackRange | skills/meta/skill-recommendation-engine/lib/skill_utility.py:264-283 | for an unknown skill the estimate is 0.6 plus the category and priority adjustments, lies in [0.5, 0.85], "high" beats "low" by exactly 0.2, and the extremes are reached |
| SkillUtility.WeightedInUnit | skills/meta/skill-recommendation-engine/lib/skill_utility.py:306-313 | the weights sum to one: facets in [0, 1] give an overall value in [0, 1], all-ones give 1 and all-zeros give 0 |
| SkillUtility.OverallUtility | skills/meta/skill-recommendation-engine/lib/skill_utility.py:294-315 | the overall utility lies in [0, 1], and an unknown skill scores 0.61 |
| ContextAnalyzer.ClassifyLine | skills/meta/skill-recommendation-engine/lib/context_analyzer.py:86-96 | the bucket of a porcelain line, by both directions: modified when either status column is M, added when the first is A, deleted when either is D, untracked for ?, and a one-character line other than M raises (no bucket) |
| ContextAnalyzer.ParseStatusLines | skills/meta/skill-recommendation-engine/lib/context_analyzer.py:80-103 | the loop over the lines computes the four buckets of the specification function, or the failure once a line raised |
| ContextAnalyzer.ParseLinesNoneStays | skills/meta/skill-recommendation-engine/lib/context_analyzer.py:82-105 | once a line has raised, the whole parse fails whatever follows |
| ContextAnalyzer.ParseLinesFails | skills/meta/skill-recommendation-engine/lib/context_analyzer.py:82-105 | the parse fails exactly when some line is a one-character line other than M |
| ContextAnalyzer.ParseLinesPaths | skills/meta/skill-recommendation-engine/lib/context_analyzer.py:82-103 | a path is in some bucket exactly when it is the path part of a line that lands in a bucket |
| ContextAnalyzer.GetGitStatus | skills/meta/skill-recommendation-engine/lib/context_analyzer.py:60-105 | a non-zero exit code or a raising line gives four empty buckets; otherwise the parsed buckets of the stripped output's lines |
| ContextAnalyzer.OneCharacterLineEmpties | skills/meta/skill-recommendation-engine/lib/context_analyzer.py:86-105 | an output of the single line "A" makes the status read raise, and every bucket comes back empty |
| ContextAnalyzer.StripShiftsFirstPath | skills/meta/skill-recommendation-engine/lib/context_analyzer.py:82-90 | because the whole output is stripped before splitting, a first line " M path" loses its leading space and its path loses its first character |
| ContextAnalyzer.SuffixSetAppend | skills/meta/skill-recommendation-engine/lib/context_analyzer.py:119-123 | one more path adds its lowercased suffix, if it has one, and nothing else |
| ContextAnalyzer.SuffixSetShape | skills/meta/skill-recommendation-engine/lib/context_analyzer.py:121-123 | every collected file type starts with a dot, has at least one more character and no upper-case letter |
| ContextAnalyzer.AddSuffixes | skills/meta/skill-recommendation-engine/lib/context_analyzer.py:120-123 | the inner loop adds exactly the suffixes of its paths |
| ContextAnalyzer.AnalyzeFileTypes | skills/meta/skill-recommendation-engine/lib/context_analyzer.py:107-125 | the file types are exactly the lowercased suffixes of all paths in the four buckets |
| ContextAnalyzer.AnalyzeFileTypesFromStatus | skills/meta/skill-recommendation-engine/lib/context_analyzer.py:244-265 | the file types are exactly the lowercased suffixes of the paths of the lines with at least three characters |
| ContextAnalyzer.LongLinesPaths | skills/meta/skill-recommendation-engine/lib/context_analyzer.py:256-260 | a path is read exactly from the lines of at least three characters |
| ContextAnalyzer.FileTypesFromStatusAgrees | skills/meta/skill-recommendation-engine/lib/context_analyzer.py:244-265 | on well-formed porcelain output the raw-output parser and the status-based analysis find the same file types |
| ContextAnalyzer.ProjectType | skills/meta/skill-recommendation-engine/lib/context_analyzer.py:127-173 | the result is one of the ten project types; Coq sources always mean formal verification; quantum exactly when there is no Coq file and a circuit file; web only with a package.json; polyglot and unknown exactly when no rule fires, split at more than two types |
| ContextAnalyzer.PythonProjects | skills/meta/skill-recommendation-engine/lib/context_analyzer.py:149-161 | with Python sources and no Coq or quantum file, the project is Python exactly when the web rule does not fire and either a Python marker exists or neither a Cargo nor a Go marker does |
| ContextAnalyzer.TestPatternsReduce | skills/meta/skill-recommendation-engine/lib/context_analyzer.py:190-193 | the five test patterns reduce to "test" or "spec" in the lowercased path |
| ContextAnalyzer.Activity | skills/meta/skill-recommendation-engine/lib/context_analyzer.py:175-217 | the activity is one of testing, refactoring, coding, exploring, and it is testing exactly when a modified or added path is a test file |
| ContextAnalyzer.ActivityRules | skills/meta/skill-recommendation-engine/lib/context_analyzer.py:185-217 | untracked files never matter; exploring exactly when nothing is modified, added or deleted; deletions alone mean refactoring; coding means at most five changes including a modification or an addition |
| ContextAnalyzer.TokenBudget | skills/meta/skill-recommendation-engine/lib/context_analyzer.py:219-232 | an unset variable gives the default budget 150000 |
| ContextAnalyzer.TokenBudgetOf | skills/meta/skill-recommendation-engine/lib/context_analyzer.py:227-232 | the decimal text of a number gives that number, and text that is not an integer gives 150000 |
| ContextAnalyzer.Analyze | skills/meta/skill-recommendation-engine/lib/context_analyzer.py:38-58 | the analysis holds the git status, the file types of its paths, the project type of those types, the activity of the status and the token budget |
| ContextAnalyzer.DetectCurrentWork | skills/meta/skill-recommendation-engine/lib/context_analyzer.py:234-242 | the activity of the current status, which is exploring exactly when nothing is modified, added or deleted |
| ProjectAnalyzer.RepoAge | skills/meta/skill-recommendation-engine/lib/project_analyzer.py:58-83 | a raising run, a non-zero exit code or blank output gives age 0 |
| ProjectAnalyzer.RepoAgeDays | skills/meta/skill-recommendation-engine/lib/project_analyzer.py:74-83 | without a parsable first timestamp the age is 0; otherwise it is the number of whole days (floor division by 86400) between that timestamp and now |
| ProjectAnalyzer.TimestampOutputParses | skills/meta/skill-recommendation-engine/lib/project_analyzer.py:77 | the decimal output of a timestamp parses back to that timestamp |
| ProjectAnalyzer.Coverage | skills/meta/skill-recommendation-engine/lib/project_analyzer.py:110-148 | the estimate is one of low, medium, high, and it is low whenever there are no tests or no source files |
| ProjectAnalyzer.CoverageMonotone | skills/meta/skill-recommendation-engine/lib/project_analyzer.py:135-145 | more test files or fewer source files never lower the estimate |
| ProjectAnalyzer.CoverageThresholds | skills/meta/skill-recommendation-engine/lib/project_analyzer.py:138-145 | a ratio of 3/5 gives high, 1/5 gives medium and no tests among sources gives low, at every scale |
| ProjectAnalyzer.CountRequirements | skills/meta/skill-recommendation-engine/lib/project_analyzer.py:165-168 | the requirement count never exceeds the number of lines |
| ProjectAnalyzer.HeaderIndex | skills/meta/skill-recommendation-engine/lib/project_analyzer.py:190-192 | the located "[dependencies]" line is the first line containing it, and none is found exactly when no line contains it |
| ProjectAnalyzer.CargoScanCountsSection | skills/meta/skill-recommendation-engine/lib/project_analyzer.py:189-196 | the Cargo loop counts exactly the lines containing "=" after the first "[dependencies]" line and before the next line opening a section |
| ProjectAnalyzer.CountCargo | skills/meta/skill-recommendation-engine/lib/project_analyzer.py:186-196 | the loop with its in_deps flag computes that positional count |
| ProjectAnalyzer.CountDependencies | skills/meta/skill-recommendation-engine/lib/project_analyzer.py:150-200 | the method computes the total of the three sources |
| ProjectAnalyzer.DependencyCountSources | skills/meta/skill-recommendation-engine/lib/project_analyzer.py:157-200 | with no file the count is 0; the total is the sum of the requirements, package.json and Cargo counts, and the requirements part is at most its number of lines |
| ProjectAnalyzer.SecurityIssues | skills/meta/skill-recommendation-engine/lib/project_analyzer.py:202-233 | issues are reported exactly when the lock file is older than 180 days or more than half the kept requirement lines carry no pin |
| ProjectAnalyzer.SecurityPinnedIsClean | skills/meta/skill-recommendation-engine/lib/project_analyzer.py:221-233 | a fresh lock and only pinned requirements mean no issue, and so does a missing requirements file |
| ProjectAnalyzer.SecurityLines | skills/meta/skill-recommendation-engine/lib/project_analyzer.py:226 | the kept lines are non-empty and no more than the input lines |
| ProjectAnalyzer.IndentedCommentCountsAsUnpinned | skills/meta/skill-recommendation-engine/lib/project_analyzer.py:165-168 | an indented comment line " #" is not a dependency for the counter (which strips before testing for "#") but is an unpinned requirement for the security check (which tests the raw line) |
| ProjectAnalyzer.SingleUnpinnedLine | skills/meta/skill-recommendation-engine/lib/project_analyzer.py:226-229 | a requirements file made of one unpinned non-comment line is a security issue |
| ProjectAnalyzer.Documentation | skills/meta/skill-recommendation-engine/lib/project_analyzer.py:235-262 | the quality is poor without a README, good exactly when the README is longer than 3000 characters or a docs directory exists, adequate exactly for 1001 to 3000 characters without docs |
| ProjectAnalyzer.CommitCount | skills/meta/skill-recommendation-engine/lib/project_analyzer.py:264-286 | a raising run or a non-zero exit code gives 0 commits; a successful run counts the non-empty lines of its stripped output, never more than there are lines |
| ProjectAnalyzer.CommitCountOfLog | skills/meta/skill-recommendation-engine/lib/project_analyzer.py:280-283 | a successful log of k one-line commits, each ended by a newline, counts exactly k commits, and a blank log counts none |
| ProjectAnalyzer.LineCountIsNewlines | skills/meta/skill-recommendation-engine/lib/project_analyzer.py:315 | a file's line count is its number of newlines plus one |
| ProjectAnalyzer.Sizes | skills/meta/skill-recommendation-engine/lib/project_analyzer.py:312-322 | the sizes of the readable files, each at least 1, no more than the files |
| ProjectAnalyzer.Max | skills/meta/skill-recommendation-engine/lib/project_analyzer.py:326 | the maximum bounds every size and is one of them |
| ProjectAnalyzer.Average | skills/meta/skill-recommendation-engine/lib/project_analyzer.py:327 | the floor average: its product with the count is at most the total, and one more exceeds it |
| ProjectAnalyzer.SampleSizes | skills/meta/skill-recommendation-engine/lib/project_analyzer.py:312-322 | the loop over the sample collects the sizes and counts those above 500 lines |
| ProjectAnalyzer.AnalyzeComplexity | skills/meta/skill-recommendation-engine/lib/project_analyzer.py:288-332 | the method computes the indicators of the first 100 files |
| ProjectAnalyzer.ComplexityConsistent | skills/meta/skill-recommendation-engine/lib/project_analyzer.py:295-332 | at most 100 large files; average at most maximum at most total; no files give all zeros |
| ProjectAnalyzer.Analyze | skills/meta/skill-recommendation-engine/lib/project_analyzer.py:40-56 | the state holds the age, the tests flag, coverage, dependency count, security flag, documentation quality, commit count and complexity computed from the observations |
| UserPatterns.Snapshot | skills/meta/skill-recommendation-engine/lib/user_patterns.py:206-213 | the stored context keeps the current activity and lists exactly the analysis's file types, each once |
| UserPatterns.NextRateRule | skills/meta/skill-recommendation-engine/lib/user_patterns.py:247-259 | an unseen skill starts at 0.5; a success moves the rate to r*0.8+0.2, never down, and a failure to r*0.8, never up; the result stays in [0, 1] |
| UserPatterns.NextRateClamped | skills/meta/skill-recommendation-engine/lib/user_patterns.py:259 | whatever the stored rate, the saved rate lies in [0, 1] |
| UserPatterns.UpdateRatingRules | skills/meta/skill-recommendation-engine/lib/user_patterns.py:231-270 | the skill's rate is the smoothing step of its old rate; a rating of 4 or more makes it preferred and not avoided, 2 or less avoided and not preferred, and no rating or 3 leaves both sets alone |
| UserPatterns.UpdateFrame | skills/meta/skill-recommendation-engine/lib/user_patterns.py:231-270 | an update for one skill changes no other skill's rate or preference, nor the tolerance and expertise, and adds only that skill to the rated skills |
| UserPatterns.UpdatePreservesValid | skills/meta/skill-recommendation-engine/lib/user_patterns.py:231-270 | an update keeps no skill both preferred and avoided and every rate in [0, 1] |
| UserPatterns.SuccessesClosedForm | skills/meta/skill-recommendation-engine/lib/user_patterns.py:247-259 | n successes in a row on a new skill leave the rate at 1 - 0.5*0.8^n, which never reaches 1 |
| UserPatterns.FiveSuccesses | skills/meta/skill-recommendation-engine/lib/user_patterns.py:247-259 | five successes on a new skill give exactly 0.83616 |
| UserPatterns.SimilarFacts | skills/meta/skill-recommendation-engine/lib/user_patterns.py:312-341 | a stored context is similar to a current one exactly when the activities match or the file types share one; a context is similar to itself, and an empty stored context to nothing |
| UserPatterns.SimilarSuccesses | skills/meta/skill-recommendation-engine/lib/user_patterns.py:300-306 | the count of similar successes never exceeds the history's length |
| UserPatterns.AffinityFacts | skills/meta/skill-recommendation-engine/lib/user_patterns.py:272-310 | an avoided skill scores 0 even when preferred; the affinity lies in [0, 1]; a preferred, non-avoided skill scores at least 0.3; without history of rates or a context only the preference counts |
| UserPatterns.AffinitySimilarityBonus | skills/meta/skill-recommendation-engine/lib/user_patterns.py:298-308 | for an otherwise unknown skill the affinity is 0.05 per similar success, capped at 0.2 from four on |
| UserPatterns.ComplexSuccesses | skills/meta/skill-recommendation-engine/lib/user_patterns.py:366-370 | the count of complex successes never exceeds the history's length |
| UserPatterns.ComplexityTolerance | skills/meta/skill-recommendation-engine/lib/user_patterns.py:343-377 | a tolerance other than "medium" is returned as set; otherwise the result is one of low, medium, high |
| UserPatterns.ToleranceRules | skills/meta/skill-recommendation-engine/lib/user_patterns.py:356-377 | from "medium" the tolerance becomes high exactly with three complex successes, low exactly with none in a history of more than five entries |
| UserPatterns.ToleranceMonotone | skills/meta/skill-recommendation-engine/lib/user_patterns.py:366-377 | one more complex success never lowers the inferred tolerance |
| UserPatterns.UserPatternStore.constructor | skills/meta/skill-recommendation-engine/lib/user_patterns.py:46-63 | a new store has the default preferences, which are consistent, and no history |
| UserPatterns.UserPatternStore.SaveFeedbackEntry | skills/meta/skill-recommendation-engine/lib/user_patterns.py:167-186 | saving appends the entry to the history and leaves the preferences alone |
| UserPatterns.UserPatternStore.UpdatePreferencesFromFeedback | skills/meta/skill-recommendation-engine/lib/user_patterns.py:231-270 | the saved preferences become the updated ones, the history is unchanged |
| UserPatterns.UserPatternStore.RecordFeedback | skills/meta/skill-recommendation-engine/lib/user_patterns.py:188-229 | the entry with the context snapshot is appended, the preferences are updated, and consistent preferences stay consistent |
| ConfidenceScorer.ContextRelevance | skills/meta/skill-recommendation-engine/lib/confidence_scorer.py:78-137 | the context relevance, after the cap at 1.0, lies in [0, 1] |
| ConfidenceScorer.FileTypePriority | skills/meta/skill-recommendation-engine/lib/confidence_scorer.py:111-119 | file-type rules are exclusive in source order: a Coq file decides the bonus as if it were the only type, then a quantum circuit; with Coq files present the quantum optimizer gets no file-type bonus |
| ConfidenceScorer.ContextRelevanceUnnamed | skills/meta/skill-recommendation-engine/lib/confidence_scorer.py:98-137 | a skill no context rule names and that is not formal analysis has relevance 0 |
| ConfidenceScorer.Domain | skills/meta/skill-recommendation-engine/lib/confidence_scorer.py:176 | the domain is the category's part before its first "/": a prefix of the category with no "/", followed in the category by "/" when shorter, and the whole category when it has no "/" |
| ConfidenceScorer.UserAlignmentFacts | skills/meta/skill-recommendation-engine/lib/confidence_scorer.py:139-190 | an avoided skill scores 0 even when preferred; the alignment lies in [0, 1]; a preferred, non-avoided skill scores at least 0.4; with no preference, no history and medium tolerance only the 0.2 expertise bonus counts |
| ConfidenceScorer.ProjectFit | skills/meta/skill-recommendation-engine/lib/confidence_scorer.py:192-242 | the project fit, after the cap at 1.0, lies in [0, 1] |
| ConfidenceScorer.DependencyBonusRule | skills/meta/skill-recommendation-engine/lib/confidence_scorer.py:224-229 | only the dependency audit gains from dependencies: 0.4 above 50, 0.2 above 20, nothing otherwise |
| ConfidenceScorer.ProjectFitDependencyMonotone | skills/meta/skill-recommendation-engine/lib/confidence_scorer.py:224-229 | more dependencies never lower a skill's project fit |
| ConfidenceScorer.Confidence | skills/meta/skill-recommendation-engine/lib/confidence_scorer.py:36-76 | the confidence always lies in [0, 100] |
| ConfidenceScorer.ConfidenceContextOnly | skills/meta/skill-recommendation-engine/lib/confidence_scorer.py:58-76 | with no preferences, project state or utility, only the 40-point context part counts, so the confidence is at most 40 |
| ConfidenceScorer.ConfidenceDecomposes | skills/meta/skill-recommendation-engine/lib/confidence_scorer.py:58-76 | with every input given the clamp never fires: the confidence is the weighted sum 40, 30, 20, 10 of relevance, alignment, fit and reliability, and an avoided skill loses the whole alignment part |
| ConfidenceScorer.ConfidenceCategory | skills/meta/skill-recommendation-engine/lib/confidence_scorer.py:244-263 | the category is one of the five labelled buckets |
| ConfidenceScorer.ConfidenceCategoryBands | skills/meta/skill-recommendation-engine/lib/confidence_scorer.py:254-263 | a higher confidence never falls into a lower bucket; below 60 is exactly Low Priority, 90 and above exactly Immediate Needs, and the middle buckets are the 10-point bands from 60 |
| Recommender.MakeRecommendation | skills/meta/skill-recommendation-engine/lib/recommender.py:19-40 | a recommendation keeps its skill, confidence, context and reasoning, and a category given to it |
| Recommender.MakeRecommendationBucket | skills/meta/skill-recommendation-engine/lib/recommender.py:28-40 | an empty category is replaced by the confidence bucket, and rebuilding a finished recommendation changes nothing |
| Recommender.CategoryFilterIsExact | skills/meta/skill-recommendation-engine/lib/recommender.py:89-91 | the category filter compares exactly, so a filter on "analysis" drops an "analysis/code" skill that the loader's prefix filter would keep |
| Recommender.Candidates | skills/meta/skill-recommendation-engine/lib/recommender.py:84-119 | the loop keeps at most one recommendation per skill |
| Recommender.CandidatesExactly | skills/meta/skill-recommendation-engine/lib/recommender.py:87-119 | a recommendation is collected exactly when it is built from a skill that passes the filters and reaches the minimum confidence |
| Recommender.Take | skills/meta/skill-recommendation-engine/lib/recommender.py:123 | the slice `[:top_n]` is a prefix of length min(n, length), and for negative n it drops the last -n elements |
| Recommender.Recommend | skills/meta/skill-recommendation-engine/lib/recommender.py:61-123 | the loop, stable sort and slice compute the recommendations whose properties are proved below |
| Recommender.RecommendationsMembers | skills/meta/skill-recommendation-engine/lib/recommender.py:87-119 | every returned recommendation is of a catalog skill that passes the filters, reaches the minimum confidence, carries its confidence bucket and the shared context |
| Recommender.RecommendationsOrder | skills/meta/skill-recommendation-engine/lib/recommender.py:121-123 | at most top_n are returned, in non-increasing confidence, each at least as confident as every one cut off, and the sorted list is a permutation of the candidates |
| Recommender.RecommendationsStable | skills/meta/skill-recommendation-engine/lib/recommender.py:122 | recommendations of equal confidence keep their catalog order, as Python's stable sort does |
| Recommender.RecommendationsFacts | skills/meta/skill-recommendation-engine/lib/recommender.py:61-123 | all of the above together |
| Recommender.ShownTypesSmallest | skills/meta/skill-recommendation-engine/lib/recommender.py:152 | the shown file types are the (at most three) smallest in code-point order, in increasing order, and all of them when there are at most three |
| Recommender.StateReasons | skills/meta/skill-recommendation-engine/lib/recommender.py:162-169 | the project-state part gives at most three reasons |
| Recommender.OtherReasons | skills/meta/skill-recommendation-engine/lib/recommender.py:150-179 | apart from the activity, at most six reasons arise, none of them empty or starting with "C" |
| Recommender.Reasons | skills/meta/skill-recommendation-engine/lib/recommender.py:144-179 | at most seven reasons arise |
| Recommender.ShownReasons | skills/meta/skill-recommendation-engine/lib/recommender.py:181-185 | between one and four reasons are joined |
| Recommender.ReasoningFacts | skills/meta/skill-recommendation-engine/lib/recommender.py:144-185 | with no reason the explanation is the description; otherwise the first four reasons are shown in order; "Currently exploring" is never a reason |
| Recommender.ScenarioFilters | skills/meta/skill-recommendation-engine/lib/recommender.py:197-205 | only "new_project" filters, on priority "high"; no scenario filters on category |
| Recommender.RecommendForScenario | skills/meta/skill-recommendation-engine/lib/recommender.py:187-206 | a scenario gets the top five with confidence at least 60, all of high priority for a new project |
| Recommender.AddToFacts | skills/meta/skill-recommendation-engine/lib/recommender.py:228-232 | filing a name keeps keys distinct, adds the key in first-seen order, and appends the name to that key's list only |
| Recommender.GroupPairsFacts | skills/meta/skill-recommendation-engine/lib/recommender.py:226-240 | grouping gives distinct keys, exactly the keys that occur, and under each key its names in order |
| Recommender.GroupMembership | skills/meta/skill-recommendation-engine/lib/recommender.py:226-240 | a name is filed under a key exactly when that pair occurs |
| Recommender.GetRecommendationSummary | skills/meta/skill-recommendation-engine/lib/recommender.py:208-251 | the two grouping loops and the average compute the summary whose properties are proved below |
| Recommender.SummaryFacts | skills/meta/skill-recommendation-engine/lib/recommender.py:218-251 | the count is the length; an empty list gives empty groups, average 0 and no top; otherwise the top is the first recommendation, and each grouping files a name under a key exactly when that recommendation has that bucket or skill category |
| Recommender.SummaryFilesEveryName | skills/meta/skill-recommendation-engine/lib/recommender.py:228-240 | every recommendation is filed under its bucket and under its skill category |
| Recommender.SummaryNameInOneBucket | skills/meta/skill-recommendation-engine/lib/recommender.py:228-232 | with distinct names, a recommendation appears under no other bucket |
| Recommender.AverageBounds | skills/meta/skill-recommendation-engine/lib/recommender.py:243 | the average confidence lies between any common lower and upper bound of the confidences |
| SkillExecutor.FrontmatterBlock | tests/runners/skill_executor.py:51 | a block is found only when the text starts with an opening "---" line; the block is the text between it and a following "---" line |
| SkillExecutor.FrontmatterLastWins | tests/runners/skill_executor.py:53-56 | a key maps to the stripped value of the last line that carries it, so later keys overwrite earlier ones |
| SkillExecutor.FrontmatterKeysFromLines | tests/runners/skill_executor.py:53-56 | every frontmatter key comes from a line containing ":" |
| SkillExecutor.HasDatedTimestampExactly | tests/runners/skill_executor.py:129 | the left-to-right scan finds a dated timestamp exactly when a match of the marker, optional whitespace and a YYYY-MM-DD date starts somewhere in the text |
| SkillExecutor.DatedTimestampHasMarker | tests/runners/skill_executor.py:117-129 | a dated timestamp implies the Timestamp marker itself is present |
| SkillExecutor.DatedTimestampExample | tests/runners/skill_executor.py:129 | "**Timestamp**: 2024-01-31" is accepted |
| SkillExecutor.MissingFieldsEmpty | tests/runners/skill_executor.py:124-126 | no field error exactly when every required marker occurs |
| SkillExecutor.ValidateSnapshotFormat | tests/runners/skill_executor.py:107-133 | a missing file gives (False, ["Snapshot file not created"]); otherwise the errors of the content, and valid exactly when there are none |
| SkillExecutor.SnapshotValidExactly | tests/runners/skill_executor.py:116-133 | a snapshot is error-free exactly when all five markers occur and a dated timestamp does |
| SkillExecutor.SnapshotNoTimestampTwoErrors | tests/runners/skill_executor.py:124-131 | without the Timestamp marker there are at least two errors, the first for the marker (its escaped pattern) and the last for the timestamp format |
| SkillExecutor.MissingSectionsEmpty | tests/runners/skill_executor.py:151-153 | no section error exactly when every required section occurs |
| SkillExecutor.ValidateSkillStructure | tests/runners/skill_executor.py:135-159 | a missing file gives (False, ["Skill file not created"]); otherwise the errors of the content, and valid exactly when there are none |
| SkillExecutor.SkillStructureValidExactly | tests/runners/skill_executor.py:144-159 | a skill file is error-free exactly when the four sections occur and it has at least 500 characters; a shorter one always has an error |
| SkillExecutor.CountFound | tests/runners/skill_executor.py:175 | at most the four categories are counted |
| SkillExecutor.ValidateManifestFormat | tests/runners/skill_executor.py:161-180 | a missing file gives (False, ["Manifest file not created"]); otherwise the errors of the content, and valid exactly when there are none |
| SkillExecutor.ManifestValidExactly | tests/runners/skill_executor.py:169-180 | a manifest is error-free exactly when it contains "# Skills" (which "## Skills" contains) and at least two category names occur in its lowercased text |
| SkillExecutor.PatternMessages | tests/runners/skill_executor.py:220-222 | k occurrences give 2k messages |
| SkillExecutor.PatternMessagesAlternate | tests/runners/skill_executor.py:220-222 | the messages alternate user, assistant |
| SkillExecutor.PatternMessagesRequests | tests/runners/skill_executor.py:221 | the i-th user message is "Do <pattern> for item <i>" |
| SkillExecutor.TranscriptLines | tests/runners/skill_executor.py:226-230 | the transcript has three lines per message |
| SkillExecutor.TranscriptLinesLayout | tests/runners/skill_executor.py:227-230 | each message gives its upper-cased role in brackets, its content and an empty line |
| SkillExecutor.MockSession.constructor | tests/runners/skill_executor.py:211-212 | a new session has no messages |
| SkillExecutor.MockSession.AddMessage | tests/runners/skill_executor.py:214-216 | one message is appended |
| SkillExecutor.MockSession.AddPattern | tests/runners/skill_executor.py:218-222 | the pattern's 2k messages are appended in order; a negative count adds none, as range does |
| SkillExecutor.MockSession.ExportTranscript | tests/runners/skill_executor.py:224-232 | the text written is the transcript lines joined by newlines |
| ValidateSkills.MissingSectionErrors | tests/validate_skills.py:143-149 | at most one error per required section |
| ValidateSkills.MissingSectionErrorsEmpty | tests/validate_skills.py:143-149 | no section error exactly when every required section is present, literally or by its name at a line start |
| ValidateSkills.MissingSectionReported | tests/validate_skills.py:145-149 | each absent section is reported by name |
| ValidateSkills.OrderWarnings | tests/validate_skills.py:159-162 | the order warning is never emitted, because a sorted list is compared with a copy of itself |
| ValidateSkills.AsWrittenRejectsEmojiHeadings | tests/validate_skills.py:27-36 | with the headings as the file spells them (emoji stored as mis-decoded characters), every one of the six emoji sections is reported missing from any text that lacks the stray private-use character, so no correctly written skill file can pass |
| ValidateSkills.EmojiHeadingsAccepted | tests/validate_skills.py:27-36 | with the headings spelt with the intended emoji, a file with the title line and all seven headings has no structure error |
| ValidateSkills.ValidateStructure | tests/validate_skills.py:135-162 | the structure check appends exactly the header and missing-section errors and no warning or recommendation |
| ValidateSkills.ShortSectionWarnings | tests/validate_skills.py:170-173 | at most one warning per section |
| ValidateSkills.ContentMessages | tests/validate_skills.py:164-186 | the content check never adds an error (the "too short" branch cannot fire after the under-1000 test); under 1000 characters it warns with the length; at most one recommendation |
| ValidateSkills.DocumentationMessages | tests/validate_skills.py:188-212 | the documentation check adds an error exactly when there is no parameter section, and never a recommendation |
| ValidateSkills.MissingHeaders | tests/validate_skills.py:236-239 | a header is listed missing exactly when no cell contains it, case-insensitively |
| ValidateSkills.TableWarningExactly | tests/validate_skills.py:236-242 | a table draws no warning exactly when all four expected headers are present |
| ValidateSkills.TableWarningsEmpty | tests/validate_skills.py:231-242 | no table warning at all exactly when each table is complete |
| ValidateSkills.ValidateParameterTable | tests/validate_skills.py:214-242 | the loop over the tables appends the warnings of the specification function |
| ValidateSkills.ParameterTableWarnsExactly | tests/validate_skills.py:214-242 | the table check never adds an error or recommendation, and warns exactly when a parameter section has no table or an incomplete one |
| ValidateSkills.ExampleMessages | tests/validate_skills.py:244-265 | an error exactly when there is no examples section; at most three warnings and no recommendation |
| ValidateSkills.QualityScore | tests/validate_skills.py:267-282 | the score lies in [0, 1] |
| ValidateSkills.QualityScoreRules | tests/validate_skills.py:269-282 | no errors and warnings and at most three recommendations give 1; five errors give 0; a positive score is exactly 1 - 0.2 per error - 0.05 per warning - 0.1 beyond three recommendations |
| ValidateSkills.QualityScoreMonotone | tests/validate_skills.py:269-282 | more errors, warnings or recommendations never raise the score |
| ValidateSkills.CombinedErrors | tests/validate_skills.py:99-112 | the file has no error exactly when the structure is complete and both the parameter and examples sections exist |
| ValidateSkills.SkillResultFacts | tests/validate_skills.py:77-133 | a result is valid exactly when it has no error, its score lies in [0, 1], and a read failure gives an invalid result with one error, score 0 and category "unknown" |
| ValidateSkills.ValidWithExactly | tests/validate_skills.py:99-120 | for any list of required headings, a readable file is valid exactly when its title line, every heading, the parameter section and the examples section are present |
| ValidateSkills.ValidExactly | tests/validate_skills.py:99-120 | a readable file is valid exactly when its title line, every required heading as the source spells it, the parameter section and the examples section are present |
| ValidateSkills.IntendedValidExactly | tests/validate_skills.py:27-36 | with the intended emoji headings, validity is the same condition over the real emoji headings |
| ValidateSkills.AsWrittenResultInvalid | tests/validate_skills.py:143-149 | as written, every readable file without the stray private-use character is invalid and receives the output-examples warning |
| ValidateSkills.OutputWarningAsWritten | tests/validate_skills.py:210-212 | the output heading as written is never found in such a file, so the output-examples warning is always given |
| ValidateSkills.ResultsOfFacts | tests/validate_skills.py:68-73 | the result map's keys are exactly the files' stems, and every result is consistent and scored in [0, 1] |
| ValidateSkills.CountValid | tests/validate_skills.py:290 | the valid count never exceeds the number of results |
| ValidateSkills.ReportFacts | tests/validate_skills.py:284-307 | no results give the fixed message; otherwise total, valid and invalid add up, and the detail lists every skill once in sorted order |
| ValidateSkills.ReportAverageBounded | tests/validate_skills.py:291 | the average quality lies in [0, 1] |
| ValidateSkills.SkillValidator.constructor | tests/validate_skills.py:46-49 | a new validator has no results |
| ValidateSkills.SkillValidator.ValidateSkillFile | tests/validate_skills.py:77-133 | the checks, run in order with the headings as the source spells them, give the result whose validity `ValidExactly` characterises |
| ValidateSkills.SkillValidator.ValidateAllSkills | tests/validate_skills.py:56-75 | a missing directory gives an empty map and leaves the stored results; otherwise the as-written results of every file are returned and stored |
| ManifestGenerator.FrontmatterBlock | skills/meta/manifest-generator/generate_manifest_simple.py:23-25 | a block is found only at the very start of the file, after "---" and a newline, and ends at a following newline and "---" |
| ManifestGenerator.CleanValue | skills/meta/manifest-generator/generate_manifest_simple.py:34 | a stripped and unquoted value neither starts nor ends with a quote character |
| ManifestGenerator.MetadataClean | skills/meta/manifest-generator/generate_manifest_simple.py:30-34 | every stored value is free of surrounding quote characters |
| ManifestGenerator.ParseSkillFrontmatter | skills/meta/manifest-generator/generate_manifest_simple.py:16-39 | an unreadable file or one without a leading block gives (None, None); any name or description found is unquoted |
| ManifestGenerator.MetadataSnoc | skills/meta/manifest-generator/generate_manifest_simple.py:31-34 | each line with a colon sets its key to its value, overwriting an earlier one |
| ManifestGenerator.ParseWellFormed | skills/meta/manifest-generator/generate_manifest_simple.py:16-36 | a file opening with "name: n" and "description: d" lines in a block returns exactly (n, d), for any clean n and d |
| ManifestGenerator.CategorizeSplits | skills/meta/manifest-generator/generate_manifest_simple.py:41-53 | three or more path parts give "p0/p1", two give "p0", fewer give "root" |
| ManifestGenerator.EstimateTokensMonotone | skills/meta/manifest-generator/generate_manifest_simple.py:75-91 | a longer file never gets a smaller estimate; under 1000 characters gives "~300", 3000 or more "~1000+", and a read error the same rank as "~500" |
| ManifestGenerator.ExtractTriggers | skills/meta/manifest-generator/generate_manifest_simple.py:55-73 | a missing or empty description gives no triggers; otherwise the pattern matches in order |
| ManifestGenerator.EntryOf | skills/meta/manifest-generator/generate_manifest_simple.py:98-120 | a kept file is not the manifest or a generator path, has a name and a description, and is filed under its path's category |
| ManifestGenerator.ScanOf | skills/meta/manifest-generator/generate_manifest_simple.py:93-122 | the scan keeps at most one entry per file |
| ManifestGenerator.ScanFacts | skills/meta/manifest-generator/generate_manifest_simple.py:98-120 | every entry comes from a file of the walk and has a non-empty name and description |
| ManifestGenerator.PresentAtIndices | skills/meta/manifest-generator/generate_manifest_simple.py:98-120 | the present outcomes are as many as the present positions, and the k-th is the value at the k-th position |
| ManifestGenerator.PresentIndicesOrdered | skills/meta/manifest-generator/generate_manifest_simple.py:98-120 | the present positions increase, and a position is listed exactly when its outcome is present |
| ManifestGenerator.PresentExactly | skills/meta/manifest-generator/generate_manifest_simple.py:98-120 | keeping the present outcomes of a sequence lists the k-th present value at the k-th present position, with the positions increasing and listed exactly when present |
| ManifestGenerator.ScanIsPresent | skills/meta/manifest-generator/generate_manifest_simple.py:98-120 | the scan is the present outcomes of the walked files, in walk order |
| ManifestGenerator.ScanComplete | skills/meta/manifest-generator/generate_manifest_simple.py:98-120 | the scan lists exactly the files that yield an entry, each with its own entry, in walk order: a file is listed if and only if it is not skipped and has a name and a description |
| ManifestGenerator.ScanSkills | skills/meta/manifest-generator/generate_manifest_simple.py:93-122 | the loop collects the entries of the specification function |
| ManifestGenerator.FirstNamedFacts | skills/meta/manifest-generator/generate_manifest_simple.py:151 | `next` finds a skill exactly when one has the name, and then it is the first such skill |
| ManifestGenerator.QuickRowsFacts | skills/meta/manifest-generator/generate_manifest_simple.py:146-155 | the quick-reference rows follow the fixed top-skill order, list exactly the top skills that were scanned, and each shows the first scanned skill of that name |
| ManifestGenerator.QuickReference | skills/meta/manifest-generator/generate_manifest_simple.py:150-155 | the loop builds exactly those rows |
| ManifestGenerator.InCategory | skills/meta/manifest-generator/generate_manifest_simple.py:127-129 | a category's list holds exactly the skills filed under it |
| ManifestGenerator.SectionsFacts | skills/meta/manifest-generator/generate_manifest_simple.py:182-196 | the catalog sections follow the fixed category order, appear exactly for the known categories that have skills, and list each category's skills sorted by name under its title |
| ManifestGenerator.SectionSorted | skills/meta/manifest-generator/generate_manifest_simple.py:190 | a section's skills are sorted by name, a permutation of the category's skills, and skills of equal name keep their scan order |
| ManifestGenerator.GroupFacts | skills/meta/manifest-generator/generate_manifest_simple.py:127-129 | the grouping's keys are exactly the categories that occur, and each holds that category's skills in scan order |
| ManifestGenerator.GroupCategories | skills/meta/manifest-generator/generate_manifest_simple.py:126-129 | the loop builds exactly that grouping |
| ManifestGenerator.Catalog | skills/meta/manifest-generator/generate_manifest_simple.py:182-196 | the loop over the fixed categories builds exactly the sections above |
| ManifestGenerator.CatalogFacts | skills/meta/manifest-generator/generate_manifest_simple.py:182-196 | only known categories are listed; a skill of any other category is in no section but still counts among the categories |
| ManifestGenerator.GenerateManifest | skills/meta/manifest-generator/generate_manifest_simple.py:124-238 | the method computes the quick reference, catalog and category count of the specification function |
| Installer.FindIn | install.py:201-202 | a record is found exactly when some record has the name, and it is one of them |
| Installer.SkillsByCategory | install.py:192-196 | an unknown category raises with "Unknown category: <name>"; a known one gives that category's skills |
| Installer.GetSkillInfoFacts | install.py:198-208 | info exists exactly when some category holds the skill, and then it is that skill's record tagged with a category holding it |
| Installer.ListAllSkills | install.py:210-215 | one entry per category, in manifest order, listing its skill names in order |
| Installer.ListedSkillsKnown | install.py:210-215 | every listed name has info |
| Installer.KnownIsListed | install.py:198-208 | every skill with info is among the names verification covers |
| Installer.InstallFacts | install.py:217-250 | installing only adds known skills no higher than the target in the dependency order; an unknown skill or missing source file fails with nothing copied; a dry run copies nothing and succeeds exactly when the skill is known and its source exists; a real success leaves the skill and all its dependencies installed; a failure leaves a new skill uninstalled |
| Installer.InstallDepsFacts | install.py:239-242 | the dependency loop only adds skills strictly below the owner, and on success every remaining dependency is installed |
| Installer.InstallEachCons | install.py:239-242 | installing a list is installing its first name, then the rest from the state that install left |
| Installer.InstallDepsExactly | install.py:239-242 | the dependency loop succeeds exactly when every remaining dependency's install, each run from the state the earlier ones left, succeeds, and it then leaves the state of those installs |
| Installer.InstallExactly | install.py:217-250 | a real install of a known skill with a source succeeds exactly when all its dependencies' installs succeed in order, and then leaves their state plus the skill |
| Installer.FirstDependencyFailureAborts | install.py:239-242 | when the first dependency fails (even one already installed, whose source is missing), the install fails and the skill is not copied |
| Installer.InstallEach | install.py:262-264 | one result per name |
| Installer.InstallEachFacts | install.py:262-283 | installing a list of names never removes a skill, each successful name is installed outside a dry run, and a dry run changes nothing |
| Installer.CountTrueAll | install.py:267-288 | the success count equals the total exactly when every install succeeded |
| Installer.CategoryInstallFacts | install.py:252-267 | an unknown category fails with nothing installed; a known one succeeds exactly when every one of its skills installed |
| Installer.TotalSkillsCounts | install.py:274 | the total counted is the number of names installed across all categories |
| Installer.AllInstallFacts | install.py:269-288 | installing everything succeeds exactly when every skill of every category installed |
| Installer.VerifyAfterInstall | install.py:217-250 | after a successful real install, verification reports the skill and each of its dependencies as installed |
| Installer.VerifyCoversManifest | install.py:314-325 | verification's keys are exactly the manifest's skill names, each mapped to whether it is installed |
| Installer.SkillInstaller.constructor | install.py:22-24 | an installer holds the manifest, the source files present and the installed set |
| Installer.SkillInstaller.InstallSkill | install.py:217-250 | the recursive method returns and leaves the installed set of the specification function |
| Installer.SkillInstaller.InstallNames | install.py:261-283 | the loop counts exactly the successful installs of its names and leaves the corresponding installed set |
| Installer.SkillInstaller.InstallCategory | install.py:252-267 | the method computes the category install of the specification function |
| Installer.SkillInstaller.InstallAll | install.py:269-288 | the nested loops compute the install of every category |
| Installer.SkillInstaller.UninstallSkill | install.py:290-304 | uninstalling succeeds exactly when the skill was installed, and afterwards it is not |
| Installer.MetaDependencies | install.py:50-90 | every meta skill has no dependency, except the recommendation engine, which depends on the skill extractor only |
| Installer.DevelopmentDependencies | install.py:91-113 | no development skill has a dependency |
| Installer.GitDependencies | install.py:114-136 | no git skill has a dependency |
| Installer.AnalysisDependencies | install.py:137-189 | no analysis skill has a dependency |
| Installer.RankedByDependencies | install.py:239-242 | when every dependency list is of that shape, the recursion terminates: the engine ranks above every other skill |
| Installer.PlainByCategory | install.py:49-190 | a four-category manifest whose categories each have plain dependencies has them throughout |
| Installer.SkillsManifestPlain | install.py:49-190 | every category of the shipped manifest has plain dependencies |
| Installer.SkillsManifestRanked | install.py:47-190 | the shipped manifest is acyclic: the engine's rank satisfies the install recursion's requirement |

## Left out

- Subprocess calls (`git status`, `git log`, `git rev-list`, `git ls-files`), `glob`, `os.stat`, `time.time`, `datetime.now` and environment reads are not performed. Their results are parameters of the operations that use them.
- JSON persistence of the preference store (`_load_preferences`, `_save_preferences`) and the directory lookups `_find_data_dir`, `_find_repo_root` and `_get_default_skills_dir` are filesystem I/O. The store is modelled as a value held in a class field.
- `package.json` parsing in the dependency counter is not modelled. The dependency counts arrive as inputs.
- The regular-expression scans of the skill validator arrive as a `Scans` input: the code-block, placeholder, parameter-table and example matches. So do the trigger-phrase matches of the manifest generator's `extract_triggers`. Python's `re` engine is not part of this model.
- In the test harness, several parts are file plumbing or test fixtures and are not modelled: the sections dictionary, `extract_instructions`, `extract_code_blocks`, the file helpers, `MockGitRepo`, `create_corrupted_skill`, `create_empty_context` and the context-manager `__enter__`/`__exit__`.
- Text.Lower: folds only the ASCII letters A-Z. Python's `str.lower()` also folds non-ASCII letters, for example "É" to "é" and the Kelvin sign U+212A to "k". The Unicode case tables are not part of this model.
- Text.Upper: folds only the ASCII letters a-z, for the same reason.
- Text.ParseInt: accepts only the ASCII digits 0-9. Python's `int()` also accepts other Unicode decimal digits, so `int("１２３")` is 123, but the model reports a parse failure.
- SkillExecutor.DateAtStart: `\d` is taken as the ASCII digits only. Python's `re` also matches other Unicode decimal digits there.
- SkillMetadata.SearchByKeyword: lowercases with `Text.Lower`, so a keyword or record with non-ASCII capitals can miss a match the source finds. For example, "É" does not find a description containing "é". For ASCII text the contract is exact.
- Floating point is modelled as exact `real` arithmetic. IEEE rounding of intermediate scores is not captured.
- Recommender.GetRecommendationSummary: does not model `round(avg, 1)` on the average confidence, because rounding a `real` to one decimal has no counterpart here. The summary carries the exact mean.
- Recommender.GetRecommendationSummary: the empty summary leaves out the `top_recommendation` key. The model represents the missing key as `None`.
- The text of the `:.2f`-formatted reports is not modelled, nor is the manifest's markdown output or its generation timestamp. The model covers what those texts are built from: the counts, groups, order and totals.
- `print`, logging, the command-line `main` functions and `argparse` are not modelled. They are I/O.
- `get_all` and `get_all_utilities` are not modelled. They only return the underlying dictionaries, which are the model's values.
- Exceptions raised by `shutil.copy2` and `Path.unlink` are not modelled. Copying and removing always succeed in the model once the source or installed skill exists.
- `list_installed_skills` is not a separate operation. It is the installer's `installed` set.
- `hasattr` fallbacks for missing attributes are not modelled. Every record has all of its fields.
- UserPatterns.RecordFeedback: the stored context of a feedback entry is reduced to its activity and file-type list. Those are the only fields `_is_similar_context` reads.
- SkillMetadata.SkillMetadataLoader.GetSkill, SkillMetadata.SkillMetadataLoader.FilterCategory, SkillMetadata.SkillMetadataLoader.FilterPriority and SkillMetadata.SkillMetadataLoader.Search require `cache.None? || Loaded()`. This is the invariant the loader keeps: its cache is only ever written with the catalog. The loader takes the manifest and token estimates as constructor parameters instead of reading them from disk.
- Installer.SkillInstaller.InstallSkill: requires a ranking under which every dependency precedes its dependent (`Ranked`). On a cyclic manifest the Python recursion ends in a `RecursionError`, which is caught and reported as failure; that outcome is not modelled. The shipped manifest satisfies that requirement, which `Installer.SkillsManifestRanked` proves.

## Findings

| source | as written | input that shows it | evidently intended | confidence | as-written member | corrected member |
|---|---|---|---|---|---|---|
| tests/validate_skills.py:27-36 | the required section headings are stored as mis-decoded emoji (their UTF-8 bytes read as Mac Roman), so the search looks for the mojibake text | a skill file whose headings carry the correct emoji, e.g. "## 🎯 Purpose" | the headings searched for are the real emoji headings | not executed | ValidateSkills.AsWrittenResultInvalid | ValidateSkills.IntendedValidExactly |
