/**
 * The project-state classifier: repository age, test coverage, dependency
 * counts, the security heuristic, documentation quality, recent commits and
 * complexity indicators.
 *
 * Subprocess results, glob counts, file texts, modification ages and the clock
 * are inputs; a file that is missing or cannot be read is `None`.
 */
module ProjectAnalyzer {
  import opened Wrappers
  import opened Text
  import opened ContextAnalyzer

  const SecondsPerDay: int := 86400

  /**
   * `_get_repo_age` on the output of `git log --reverse --format=%ct`: the first
   * line is the first commit's timestamp; days are floor-divided; any failure,
   * empty output or unparsable timestamp gives 0.
   */
  function RepoAge(run: RunResult, now: int): (r: int)
    ensures run.Raised? || run.returncode != 0 || Strip(run.stdout) == "" ==> r == 0
  {
    if run.Raised? || run.returncode != 0 || Strip(run.stdout) == "" then 0
    else
      match ParseInt(Split(Strip(run.stdout), '\n')[0])
      case None => 0
      case Some(first) => (now - first) / SecondsPerDay
  }

  /** The timestamp on the first line of a successful run's output, if it parses. */
  function FirstTimestamp(run: RunResult): Option<int> {
    if run.Raised? || run.returncode != 0 || Strip(run.stdout) == "" then None
    else ParseInt(Split(Strip(run.stdout), '\n')[0])
  }

  /**
   * Whenever a timestamp is read, the age is the number of whole days elapsed,
   * rounded down; a run whose output is just the timestamp reads it.
   */
  lemma RepoAgeDays(run: RunResult, now: int)
    ensures FirstTimestamp(run).None? ==> RepoAge(run, now) == 0
    ensures FirstTimestamp(run).Some? ==>
      var ts := FirstTimestamp(run).value;
      RepoAge(run, now) * SecondsPerDay <= now - ts < (RepoAge(run, now) + 1) * SecondsPerDay
  {
  }

  /** Output consisting of a timestamp alone is read back as that timestamp. */
  lemma TimestampOutputParses(ts: nat)
    ensures FirstTimestamp(Completed(0, NatToString(ts))) == Some(ts)
  {
    var d := NatToString(ts);
    assert forall i :: 0 <= i < |d| ==> !IsSpace(d[i]) by {
      forall i | 0 <= i < |d| ensures !IsSpace(d[i]) {
        assert IsDigit(d[i]);
      }
    }
    assert Strip(d) == d;
    assert '\n' !in d by {
      forall k | 0 <= k < |d| ensures d[k] != '\n' {
        assert IsDigit(d[k]);
      }
    }
    assert Split(d, '\n') == [d];
    ParseNatToString(ts);
  }

  /** `_estimate_test_coverage` from the counts the globs give. */
  function Coverage(hasTests: bool, testCount: nat, sourceCount: nat): (r: string)
    ensures r in {"low", "medium", "high"}
    ensures !hasTests || sourceCount == 0 ==> r == "low"
  {
    if !hasTests then "low"
    else if sourceCount == 0 then "low"
    else
      var ratio := testCount as real / sourceCount as real;
      if ratio >= 0.6 then "high"
      else if ratio >= 0.2 then "medium"
      else "low"
  }

  function Level(coverage: string): nat {
    if coverage == "high" then 2 else if coverage == "medium" then 1 else 0
  }

  /**
   * More test files never lower the coverage level, and fewer source files never
   * lower it either, except that no source files at all always gives "low".
   */
  lemma CoverageMonotone(hasTests: bool, t1: nat, t2: nat, s1: nat, s2: nat)
    requires t1 <= t2 && s2 <= s1 && (s2 == 0 ==> s1 == 0)
    ensures Level(Coverage(hasTests, t1, s1)) <= Level(Coverage(hasTests, t2, s2))
  {
    if hasTests && s2 > 0 {
      var x1, x2 := t1 as real, t2 as real;
      var y1, y2 := s1 as real, s2 as real;
      RatioAtLeast(x1, y1, 0.6);
      RatioAtLeast(x2, y2, 0.6);
      RatioAtLeast(x1, y1, 0.2);
      RatioAtLeast(x2, y2, 0.2);
    }
  }

  /** For a positive divisor, comparing a ratio is comparing a product. */
  lemma RatioAtLeast(t: real, s: real, c: real)
    requires s > 0.0
    ensures t / s >= c <==> t >= c * s
  {
    var q := t / s;
    assert q * s == t;
    if q >= c {
      assert q * s >= c * s;
    } else {
      assert q * s < c * s;
    }
  }

  /** The coverage thresholds: three tests per five sources is "high", one per five "medium". */
  lemma CoverageThresholds(n: nat)
    requires n > 0
    ensures Coverage(true, 3 * n, 5 * n) == "high"
    ensures Coverage(true, n, 5 * n) == "medium"
    ensures Coverage(true, 0, n) == "low"
  {
    assert (3 * n) as real / (5 * n) as real == 0.6;
    assert n as real / (5 * n) as real == 0.2;
  }

  /** A `requirements.txt` line that counts as a dependency: not blank, not a comment once stripped. */
  predicate IsRequirement(line: string) {
    Strip(line) != "" && !StartsWith(Strip(line), "#")
  }

  /** The number of requirement lines. */
  function CountRequirements(lines: seq<string>): (n: nat)
    ensures n <= |lines|
  {
    if |lines| == 0 then 0
    else (if IsRequirement(lines[0]) then 1 else 0) + CountRequirements(lines[1..])
  }

  /** The number of lines that contain `=` and do not contain the section header. */
  function CountAssignments(lines: seq<string>): (n: nat)
    ensures n <= |lines|
  {
    if |lines| == 0 then 0
    else (if !Contains(lines[0], "[dependencies]") && '=' in lines[0] then 1 else 0) + CountAssignments(lines[1..])
  }

  /** Where the `[dependencies]` section ends: the first line opening another section. */
  function SectionEnd(lines: seq<string>): (k: nat)
    ensures k <= |lines|
  {
    if |lines| == 0 then 0
    else if StartsWith(lines[0], "[") && !Contains(lines[0], "[dependencies]") then 0
    else 1 + SectionEnd(lines[1..])
  }

  /** The first line that mentions `[dependencies]`. */
  function HeaderIndex(lines: seq<string>): (r: Option<nat>)
    ensures r.Some? ==> r.value < |lines| && Contains(lines[r.value], "[dependencies]")
    ensures r.Some? ==> forall j :: 0 <= j < r.value ==> !Contains(lines[j], "[dependencies]")
    ensures r.None? ==> forall j :: 0 <= j < |lines| ==> !Contains(lines[j], "[dependencies]")
  {
    if |lines| == 0 then None
    else if Contains(lines[0], "[dependencies]") then Some(0)
    else
      match HeaderIndex(lines[1..])
      case None => None
      case Some(k) => Some(k + 1)
  }

  /**
   * The Cargo dependency count, stated by position: the lines after the first
   * `[dependencies]` line and before the next line that opens another section,
   * that contain `=`.
   */
  function CargoSectionCount(lines: seq<string>): nat {
    match HeaderIndex(lines)
    case None => 0
    case Some(k) => CountAssignments(lines[k + 1..][..SectionEnd(lines[k + 1..])])
  }

  /** The Cargo loop from a given line on, with the `in_deps` flag. */
  function CargoScan(lines: seq<string>, inDeps: bool): nat {
    if |lines| == 0 then 0
    else if Contains(lines[0], "[dependencies]") then CargoScan(lines[1..], true)
    else if StartsWith(lines[0], "[") && inDeps then 0
    else (if inDeps && '=' in lines[0] then 1 else 0) + CargoScan(lines[1..], inDeps)
  }

  lemma {:induction false} CargoScanInSection(lines: seq<string>)
    ensures CargoScan(lines, true) == CountAssignments(lines[..SectionEnd(lines)])
    decreases |lines|
  {
    if |lines| > 0 {
      var e := SectionEnd(lines);
      if e > 0 {
        CargoScanInSection(lines[1..]);
        assert lines[..e] == [lines[0]] + lines[1..][..SectionEnd(lines[1..])];
        assert lines[..e][1..] == lines[1..][..SectionEnd(lines[1..])];
      }
    }
  }

  /** The flag-driven loop counts exactly the lines of the dependencies section that contain `=`. */
  lemma {:induction false} CargoScanCountsSection(lines: seq<string>)
    ensures CargoScan(lines, false) == CargoSectionCount(lines)
    decreases |lines|
  {
    if |lines| > 0 {
      if Contains(lines[0], "[dependencies]") {
        CargoScanInSection(lines[1..]);
      } else {
        CargoScanCountsSection(lines[1..]);
        match HeaderIndex(lines[1..])
        case None =>
        case Some(k) =>
          assert lines[k + 2..] == lines[1..][k + 1..];
      }
    }
  }

  /** The Cargo part of `_count_dependencies`: the loop with its `in_deps` flag and `break`. */
  method CountCargo(content: string) returns (n: nat)
    ensures n == CargoSectionCount(Split(content, '\n'))
  {
    var lines := Split(content, '\n');
    n := 0;
    var inDeps := false;
    var i := 0;
    while i < |lines|
      invariant 0 <= i <= |lines|
      invariant n + CargoScan(lines[i..], inDeps) == CargoScan(lines, false)
    {
      var line := lines[i];
      assert lines[i..][1..] == lines[i + 1..];
      if Contains(line, "[dependencies]") {
        inDeps := true;
      } else if StartsWith(line, "[") && inDeps {
        break;
      } else if inDeps && '=' in line {
        n := n + 1;
      }
      i := i + 1;
    }
    CargoScanCountsSection(lines);
  }

  /** The dependency counts of `package.json`, as `len(dependencies)` and `len(devDependencies)`. */
  datatype PackageCounts = PackageCounts(dependencies: nat, devDependencies: nat)

  /** `_count_dependencies`: requirements, then package.json, then Cargo; unreadable files add nothing. */
  method CountDependencies(requirements: Option<string>, packageJson: Option<PackageCounts>, cargo: Option<string>)
    returns (count: nat)
    ensures count == DependencyCount(requirements, packageJson, cargo)
  {
    count := 0;
    if requirements.Some? {
      count := count + CountRequirements(Split(requirements.value, '\n'));
    }
    if packageJson.Some? {
      count := count + packageJson.value.dependencies;
      count := count + packageJson.value.devDependencies;
    }
    if cargo.Some? {
      var c := CountCargo(cargo.value);
      count := count + c;
    }
  }

  function DependencyCount(requirements: Option<string>, packageJson: Option<PackageCounts>, cargo: Option<string>): nat {
    (if requirements.Some? then CountRequirements(Split(requirements.value, '\n')) else 0)
    + (if packageJson.Some? then packageJson.value.dependencies + packageJson.value.devDependencies else 0)
    + (if cargo.Some? then CargoSectionCount(Split(cargo.value, '\n')) else 0)
  }

  /** Each source file adds its own count and nothing else. */
  lemma DependencyCountSources(requirements: Option<string>, packageJson: Option<PackageCounts>, cargo: Option<string>)
    ensures DependencyCount(None, None, None) == 0
    ensures DependencyCount(requirements, packageJson, cargo)
      == DependencyCount(requirements, None, None) + DependencyCount(None, packageJson, None)
         + DependencyCount(None, None, cargo)
    ensures DependencyCount(requirements, None, None) <= |Split(requirements.GetOr(""), '\n')|
  {
  }

  /** The requirement lines the security check keeps: stripped, non-empty, and not starting with `#` before stripping. */
  function SecurityLines(lines: seq<string>): (r: seq<string>)
    ensures |r| <= |lines|
    ensures forall i :: 0 <= i < |r| ==> r[i] != ""
  {
    if |lines| == 0 then []
    else
      var kept := if Strip(lines[0]) != "" && !StartsWith(lines[0], "#") then [Strip(lines[0])] else [];
      kept + SecurityLines(lines[1..])
  }

  predicate Unpinned(line: string) {
    !Contains(line, "==") && !Contains(line, ">=")
  }

  function CountUnpinned(lines: seq<string>): (n: nat)
    ensures n <= |lines|
  {
    if |lines| == 0 then 0 else (if Unpinned(lines[0]) then 1 else 0) + CountUnpinned(lines[1..])
  }

  /** The lock file is older than 180 days. */
  predicate StaleLock(lockAge: Option<real>) {
    lockAge.Some? && lockAge.value > (180 * SecondsPerDay) as real
  }

  /** More than half of the kept requirement lines carry no `==` or `>=` pin. */
  predicate MostlyUnpinned(requirements: Option<string>) {
    requirements.Some? &&
    var lines := SecurityLines(Split(requirements.value, '\n'));
    CountUnpinned(lines) as real > |lines| as real / 2.0
  }

  /**
   * `_check_security_indicators`, with the lock file's age in seconds and the
   * requirements text as inputs.
   */
  function SecurityIssues(lockAge: Option<real>, requirements: Option<string>): (r: bool)
    ensures r <==> StaleLock(lockAge) || MostlyUnpinned(requirements)
  {
    if lockAge.Some? && lockAge.value > (180 * SecondsPerDay) as real then true
    else if requirements.Some? then
      var lines := SecurityLines(Split(requirements.value, '\n'));
      var unpinned := CountUnpinned(lines);
      unpinned as real > |lines| as real / 2.0
    else false
  }

  /** Fully pinned requirements with a fresh or missing lock file raise nothing; an empty file raises nothing. */
  lemma SecurityPinnedIsClean(lockAge: Option<real>, content: string)
    requires !StaleLock(lockAge)
    requires CountUnpinned(SecurityLines(Split(content, '\n'))) == 0
    ensures !SecurityIssues(lockAge, Some(content))
    ensures !SecurityIssues(lockAge, None)
  {
  }

  lemma IndentedCommentOneLine()
    ensures Split(" #", '\n') == [" #"]
  {
  }

  lemma IndentedCommentStripped()
    ensures Strip(" #") == "#"
  {
    var s := " #";
    assert StripLeft(s) == "#" by {
      assert IsSpace(s[0]) && s[1..] == "#";
      assert !IsSpace("#"[0]);
    }
  }

  /** The dependency count skips an indented comment. */
  lemma IndentedCommentNotCounted()
    ensures CountRequirements(Split(" #", '\n')) == 0
  {
    var s := " #";
    IndentedCommentOneLine();
    IndentedCommentStripped();
    assert !IsRequirement(s) by {
      assert StartsWith("#", "#");
    }
    assert CountRequirements([s]) == 0;
  }

  /** A one-line requirements text whose stripped line is kept and unpinned is a security issue. */
  lemma SingleUnpinnedLine(s: string)
    requires Split(s, '\n') == [s]
    requires Strip(s) != "" && !StartsWith(s, "#") && Unpinned(Strip(s))
    ensures SecurityIssues(None, Some(s))
  {
    assert SecurityLines([s]) == [Strip(s)] by {
      assert [s][1..] == [];
    }
    assert CountUnpinned([Strip(s)]) == 1 by {
      assert [Strip(s)][1..] == [];
    }
  }

  /** The security check reads an indented comment as an unpinned requirement. */
  lemma IndentedCommentUnpinned()
    ensures SecurityIssues(None, Some(" #"))
  {
    IndentedCommentOneLine();
    IndentedCommentStripped();
    assert !StartsWith(" #", "#");
    assert Unpinned("#") by {
      assert !Contains("", "==") && !Contains("", ">=");
    }
    SingleUnpinnedLine(" #");
  }

  /**
   * The dependency count strips a line before looking for `#`; the security
   * check does not, so an indented comment is not a dependency but is an
   * unpinned requirement.
   */
  lemma IndentedCommentCountsAsUnpinned()
    ensures CountRequirements(Split(" #", '\n')) == 0
    ensures SecurityIssues(None, Some(" #"))
  {
    IndentedCommentNotCounted();
    IndentedCommentUnpinned();
  }

  /** `_assess_documentation`, with the README text (`None` if missing or unreadable) as input. */
  function Documentation(readme: Option<string>, hasDocsDir: bool): (r: string)
    ensures r in {"poor", "adequate", "good"}
    ensures readme.None? ==> r == "poor"
    ensures r == "good" <==> readme.Some? && (|readme.value| > 3000 || hasDocsDir)
    ensures r == "adequate" <==> readme.Some? && !hasDocsDir && 1000 < |readme.value| <= 3000
  {
    if readme.None? then "poor"
    else if |readme.value| > 3000 || hasDocsDir then "good"
    else if |readme.value| > 1000 then "adequate"
    else "poor"
  }

  /** `_analyze_commit_patterns`: the non-empty lines of the stripped `git log --oneline` output. */
  function CommitCount(run: RunResult): (r: nat)
    ensures run.Raised? || run.returncode != 0 ==> r == 0
    ensures run.Completed? && run.returncode == 0 ==> r == CountNonEmpty(Split(Strip(run.stdout), '\n'))
    ensures run.Completed? ==> r <= |Split(Strip(run.stdout), '\n')|
  {
    if run.Raised? || run.returncode != 0 then 0
    else CountNonEmpty(Split(Strip(run.stdout), '\n'))
  }

  function CountNonEmpty(lines: seq<string>): (n: nat)
    ensures n <= |lines|
  {
    if |lines| == 0 then 0 else (if lines[0] != "" then 1 else 0) + CountNonEmpty(lines[1..])
  }

  lemma {:induction false} CountNonEmptyAll(lines: seq<string>)
    requires forall k :: 0 <= k < |lines| ==> lines[k] != ""
    ensures CountNonEmpty(lines) == |lines|
    decreases |lines|
  {
    if |lines| > 0 {
      CountNonEmptyAll(lines[1..]);
    }
  }

  /** A `git log --oneline` line: non-empty, one line, no surrounding whitespace. */
  predicate OnelineEntry(l: string) {
    l != "" && '\n' !in l && !IsSpace(l[0]) && !IsSpace(l[|l| - 1])
  }

  /** Joined lines start with the first line's first character and end with the last line's last. */
  lemma {:induction false} JoinEnds(lines: seq<string>)
    requires |lines| > 0 && forall k :: 0 <= k < |lines| ==> lines[k] != ""
    ensures var j := Join(lines, "\n");
      |j| > 0 && j[0] == lines[0][0] && j[|j| - 1] == lines[|lines| - 1][|lines[|lines| - 1]| - 1]
    decreases |lines|
  {
    if |lines| > 1 {
      JoinEnds(lines[1..]);
      var rest := Join(lines[1..], "\n");
      assert Join(lines, "\n") == lines[0] + "\n" + rest;
    }
  }

  /**
   * A successful log of commit lines, each ended by a newline, counts exactly
   * its commits; a blank log counts none.
   */
  lemma CommitCountOfLog(lines: seq<string>, blank: string)
    requires |lines| > 0 && forall k :: 0 <= k < |lines| ==> OnelineEntry(lines[k])
    requires Strip(blank) == ""
    ensures CommitCount(Completed(0, Join(lines, "\n") + "\n")) == |lines|
    ensures CommitCount(Completed(0, blank)) == 0
  {
    var j := Join(lines, "\n");
    JoinEnds(lines);
    var s := j + "\n";
    assert s[0] == j[0];
    assert StripLeft(s) == s;
    assert s[..|s| - 1] == j;
    assert StripRight(s) == StripRight(j);
    assert Strip(s) == j;
    SplitJoin(lines, '\n');
    assert Split(j, '\n') == lines;
    CountNonEmptyAll(lines);
    assert Split("", '\n') == [""];
  }

  datatype Complexity = Complexity(totalLines: nat, largeFiles: nat, maxFileSize: nat, avgFileSize: nat)

  /** `len(text.split('\n'))`. */
  function LineCount(text: string): nat {
    |Split(text, '\n')|
  }

  /** A file's line count is its number of newlines plus one. */
  lemma LineCountIsNewlines(text: string)
    ensures LineCount(text) == CountChar(text, '\n') + 1
  {
    SplitLength(text, '\n');
  }

  /** The line counts of the readable files among the first 100. */
  function Sizes(files: seq<Option<string>>): (r: seq<nat>)
    ensures |r| <= |files|
    ensures forall i :: 0 <= i < |r| ==> r[i] >= 1
  {
    if |files| == 0 then []
    else
      var last := if files[|files| - 1].Some? then [LineCount(files[|files| - 1].value)] else [];
      Sizes(files[..|files| - 1]) + last
  }

  function Sum(xs: seq<nat>): nat {
    if |xs| == 0 then 0 else Sum(xs[..|xs| - 1]) + xs[|xs| - 1]
  }

  function Max(xs: seq<nat>): (m: nat)
    ensures forall i :: 0 <= i < |xs| ==> xs[i] <= m
    ensures |xs| > 0 ==> m in xs
  {
    if |xs| == 0 then 0
    else
      var m := Max(xs[..|xs| - 1]);
      assert forall i :: 0 <= i < |xs| - 1 ==> xs[..|xs| - 1][i] == xs[i];
      if xs[|xs| - 1] > m then xs[|xs| - 1] else m
  }

  function CountLarge(xs: seq<nat>): (n: nat)
    ensures n <= |xs|
  {
    if |xs| == 0 then 0 else CountLarge(xs[..|xs| - 1]) + (if xs[|xs| - 1] > 500 then 1 else 0)
  }

  /** Integer division of a total by a positive count, as `//` computes it on non-negative operands. */
  function Average(total: nat, n: nat): (r: nat)
    requires n > 0
    ensures r * n <= total < (r + 1) * n
  {
    total / n
  }

  /** The indicators for the given files (unreadable ones are `None`), of which only the first 100 are read. */
  function ComplexityOf(files: seq<Option<string>>): Complexity {
    var sample := if |files| > 100 then files[..100] else files;
    var sizes := Sizes(sample);
    if |sizes| == 0 then Complexity(0, 0, 0, 0)
    else Complexity(Sum(sizes), CountLarge(sizes), Max(sizes), Average(Sum(sizes), |sizes|))
  }

  /** `_analyze_complexity`: the sampling loop and the aggregation after it. */
  method AnalyzeComplexity(files: seq<Option<string>>) returns (c: Complexity)
    ensures c == ComplexityOf(files)
  {
    c := Complexity(0, 0, 0, 0);
    if |files| == 0 {
      return;
    }
    var sample := if |files| > 100 then files[..100] else files;
    var sizes, large := SampleSizes(sample);
    if |sizes| > 0 {
      c := Complexity(Sum(sizes), large, Max(sizes), Average(Sum(sizes), |sizes|));
    }
  }

  /** The sampling loop: a line count per readable file, and how many exceed 500 lines. */
  method SampleSizes(sample: seq<Option<string>>) returns (sizes: seq<nat>, large: nat)
    ensures sizes == Sizes(sample)
    ensures large == CountLarge(sizes)
  {
    sizes := [];
    large := 0;
    var i := 0;
    while i < |sample|
      invariant 0 <= i <= |sample|
      invariant sizes == Sizes(sample[..i])
      invariant large == CountLarge(sizes)
    {
      assert sample[..i + 1][..i] == sample[..i];
      if sample[i].Some? {
        var lines := LineCount(sample[i].value);
        var next := sizes + [lines];
        assert next[..|next| - 1] == sizes;
        sizes := next;
        if lines > 500 {
          large := large + 1;
        }
      }
      i := i + 1;
    }
    assert sample[..|sample|] == sample;
  }

  lemma {:induction false} SumAtMostMax(xs: seq<nat>)
    ensures Sum(xs) <= |xs| * Max(xs)
    decreases |xs|
  {
    if |xs| > 0 {
      var init := xs[..|xs| - 1];
      var n := |xs|;
      SumAtMostMax(init);
      assert Max(init) <= Max(xs) by {
        if |init| > 0 {
          var k :| 0 <= k < |init| && init[k] == Max(init);
          assert xs[k] == init[k];
        }
      }
      assert (n - 1) * Max(init) <= (n - 1) * Max(xs) by {
        MulMonotone(n - 1, Max(init), Max(xs));
      }
      assert Sum(xs) == Sum(init) + xs[n - 1];
      assert xs[n - 1] <= Max(xs);
      assert (n - 1) * Max(xs) + Max(xs) == n * Max(xs);
    }
  }

  lemma MulMonotone(k: nat, a: nat, b: nat)
    requires a <= b
    ensures k * a <= k * b
  {
  }

  /**
   * The indicators agree with each other: at most 100 files are counted, no more
   * large files than counted files, the average is the floor of total over count
   * and never exceeds the maximum, and the maximum never exceeds the total.
   */
  lemma ComplexityConsistent(files: seq<Option<string>>)
    ensures var c := ComplexityOf(files);
      && c.largeFiles <= 100
      && c.avgFileSize <= c.maxFileSize <= c.totalLines
      && (files == [] ==> c == Complexity(0, 0, 0, 0))
  {
    var sample := if |files| > 100 then files[..100] else files;
    var sizes := Sizes(sample);
    if |sizes| > 0 {
      SumAtMostMax(sizes);
      DivBelow(Sum(sizes), |sizes|, Max(sizes));
      MaxBelowSum(sizes);
    }
  }

  lemma DivBelow(s: nat, n: nat, m: nat)
    requires n > 0 && s <= n * m
    ensures Average(s, n) <= m
  {
    var q := Average(s, n);
    assert q * n <= s;
    assert q * n <= m * n;
    assert (q - m) * n <= 0;
  }

  lemma {:induction false} MaxBelowSum(xs: seq<nat>)
    ensures Max(xs) <= Sum(xs)
    decreases |xs|
  {
    if |xs| > 0 {
      MaxBelowSum(xs[..|xs| - 1]);
    }
  }

  datatype ProjectState = ProjectState(
    repositoryAgeDays: int,
    hasTests: bool,
    testCoverageEstimate: string,
    dependencyCount: nat,
    hasSecurityIssues: bool,
    documentationQuality: string,
    recentCommitsCount: nat,
    complexityIndicators: Complexity)

  /** What `analyze` reads from the working directory, the clock and git. */
  datatype Observations = Observations(
    firstCommitLog: RunResult,
    now: int,
    hasTests: bool,
    testCount: nat,
    sourceCount: nat,
    requirements: Option<string>,
    packageJson: Option<PackageCounts>,
    cargo: Option<string>,
    lockAge: Option<real>,
    readme: Option<string>,
    hasDocsDir: bool,
    recentLog: RunResult,
    sourceFiles: seq<Option<string>>)

  /** `analyze`. */
  method Analyze(o: Observations) returns (p: ProjectState)
    ensures p.repositoryAgeDays == RepoAge(o.firstCommitLog, o.now)
    ensures p.hasTests == o.hasTests
    ensures p.testCoverageEstimate == Coverage(o.hasTests, o.testCount, o.sourceCount)
    ensures p.dependencyCount == DependencyCount(o.requirements, o.packageJson, o.cargo)
    ensures p.hasSecurityIssues == SecurityIssues(o.lockAge, o.requirements)
    ensures p.documentationQuality == Documentation(o.readme, o.hasDocsDir)
    ensures p.recentCommitsCount == CommitCount(o.recentLog)
    ensures p.complexityIndicators == ComplexityOf(o.sourceFiles)
  {
    var deps := CountDependencies(o.requirements, o.packageJson, o.cargo);
    var complexity := AnalyzeComplexity(o.sourceFiles);
    p := ProjectState(RepoAge(o.firstCommitLog, o.now), o.hasTests, Coverage(o.hasTests, o.testCount, o.sourceCount),
      deps, SecurityIssues(o.lockAge, o.requirements), Documentation(o.readme, o.hasDocsDir),
      CommitCount(o.recentLog), complexity);
  }
}
