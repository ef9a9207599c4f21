/**
 * The working-context classifier: `git status --porcelain` text into change
 * buckets, the set of file extensions, the project type from extensions and
 * marker files, the current activity, and the token budget.
 *
 * The git subprocess, the marker-file checks and the environment variable are
 * inputs here: a `RunResult`, a `Markers` record and an optional string.
 */
module ContextAnalyzer {
  import opened Wrappers
  import opened Text

  /** The four change buckets, in the order of the source's dict. */
  datatype GitStatus = GitStatus(
    modified: seq<string>, added: seq<string>, deleted: seq<string>, untracked: seq<string>)

  function EmptyStatus(): GitStatus {
    GitStatus([], [], [], [])
  }

  /** The paths of all four buckets, in dict order. */
  function AllPaths(st: GitStatus): seq<string> {
    st.modified + st.added + st.deleted + st.untracked
  }

  /** The outcome of running `git status --porcelain`: it raised, or it exited with a code and output. */
  datatype RunResult = Raised | Completed(returncode: int, stdout: string)

  datatype Bucket = Modified | Added | Deleted | Untracked | Dropped

  /**
   * The bucket of a non-empty porcelain line by its two status columns; `None`
   * is the IndexError a one-character line other than "M" raises when its
   * second column is read.
   */
  function ClassifyLine(line: string): (r: Option<Bucket>)
    requires |line| >= 1
    ensures r == None <==> |line| == 1 && line[0] != 'M'
    ensures r == Some(Modified) <==> line[0] == 'M' || (|line| >= 2 && line[1] == 'M')
    ensures r == Some(Added) <==> |line| >= 2 && line[0] == 'A' && line[1] != 'M'
    ensures r == Some(Deleted) <==>
      |line| >= 2 && line[0] != 'M' && line[1] != 'M' && line[0] != 'A' && (line[0] == 'D' || line[1] == 'D')
    ensures r == Some(Untracked) <==> |line| >= 2 && line[0] == '?' && line[1] != 'M' && line[1] != 'D'
  {
    if line[0] == 'M' then Some(Modified)
    else if |line| < 2 then None
    else if line[1] == 'M' then Some(Modified)
    else if line[0] == 'A' then Some(Added)
    else if line[0] == 'D' || line[1] == 'D' then Some(Deleted)
    else if line[0] == '?' then Some(Untracked)
    else Some(Dropped)
  }

  /** `line[3:] if len(line) > 3 else ""`. */
  function PathOf(line: string): string {
    if |line| > 3 then line[3..] else ""
  }

  function Add(st: GitStatus, b: Bucket, path: string): GitStatus {
    match b
    case Modified => st.(modified := st.modified + [path])
    case Added => st.(added := st.added + [path])
    case Deleted => st.(deleted := st.deleted + [path])
    case Untracked => st.(untracked := st.untracked + [path])
    case Dropped => st
  }

  /** One line of the loop: empty lines are skipped. */
  function Step(st: GitStatus, line: string): Option<GitStatus> {
    if line == "" then Some(st)
    else
      match ClassifyLine(line)
      case None => None
      case Some(b) => Some(Add(st, b, PathOf(line)))
  }

  /** The buckets after the given lines, or `None` once a line raised. */
  function ParseLines(ls: seq<string>): Option<GitStatus>
    decreases |ls|
  {
    if |ls| == 0 then Some(EmptyStatus())
    else
      match ParseLines(ls[..|ls| - 1])
      case None => None
      case Some(st) => Step(st, ls[|ls| - 1])
  }

  /** The lines the parsers walk: the whole output is stripped, then split at newlines. */
  function Lines(stdout: string): seq<string> {
    Split(Strip(stdout), '\n')
  }

  /** `_get_git_status`: any failure gives four empty buckets. */
  function GitStatusOf(run: RunResult): GitStatus {
    if run.Raised? || run.returncode != 0 then EmptyStatus()
    else ParseLines(Lines(run.stdout)).GetOr(EmptyStatus())
  }

  /** `_get_git_status`: any failure gives four empty buckets. */
  method GetGitStatus(run: RunResult) returns (st: GitStatus)
    ensures st == GitStatusOf(run)
  {
    if run.Raised? || run.returncode != 0 {
      return EmptyStatus();
    }
    var parsed := ParseStatusLines(Lines(run.stdout));
    st := parsed.GetOr(EmptyStatus());
  }

  /** The loop of `_get_git_status` that appends each line's path to its bucket; `None` when a line raises. */
  method ParseStatusLines(lines: seq<string>) returns (r: Option<GitStatus>)
    ensures r == ParseLines(lines)
  {
    var modified, added, deleted, untracked := [], [], [], [];
    var i := 0;
    while i < |lines|
      invariant 0 <= i <= |lines|
      invariant ParseLines(lines[..i]) == Some(GitStatus(modified, added, deleted, untracked))
    {
      var line := lines[i];
      assert lines[..i + 1][..i] == lines[..i];
      if line != "" {
        var path := if |line| > 3 then line[3..] else "";
        if line[0] == 'M' || (|line| >= 2 && line[1] == 'M') {
          modified := modified + [path];
        } else if |line| < 2 {
          ParseLinesNoneStays(lines, i + 1);
          assert lines[..|lines|] == lines;
          return None;
        } else if line[0] == 'A' {
          added := added + [path];
        } else if line[0] == 'D' || line[1] == 'D' {
          deleted := deleted + [path];
        } else if line[0] == '?' {
          untracked := untracked + [path];
        }
      }
      i := i + 1;
    }
    assert lines[..|lines|] == lines;
    r := Some(GitStatus(modified, added, deleted, untracked));
  }

  /** Once a line has raised, the rest of the output does not matter. */
  lemma {:induction false} ParseLinesNoneStays(ls: seq<string>, k: nat)
    requires k <= |ls| && ParseLines(ls[..k]) == None
    ensures ParseLines(ls) == None
    decreases |ls| - k
  {
    if k < |ls| {
      assert ls[..k + 1][..k] == ls[..k];
      ParseLinesNoneStays(ls, k + 1);
    } else {
      assert ls[..k] == ls;
    }
  }

  predicate RaisesAt(ls: seq<string>, i: int) {
    0 <= i < |ls| && |ls[i]| == 1 && ls[i][0] != 'M'
  }

  /** The parse fails exactly when some line is a single character other than "M". */
  lemma {:induction false} ParseLinesFails(ls: seq<string>)
    ensures ParseLines(ls) == None <==> exists i :: RaisesAt(ls, i)
    decreases |ls|
  {
    if |ls| > 0 {
      var init := ls[..|ls| - 1];
      var last := ls[|ls| - 1];
      ParseLinesFails(init);
      if exists i :: RaisesAt(init, i) {
        var i :| RaisesAt(init, i);
        assert RaisesAt(ls, i);
      } else if RaisesAt(ls, |ls| - 1) {
        assert ParseLines(ls) == None;
      } else {
        assert ParseLines(ls).Some?;
        forall i | 0 <= i < |ls| ensures !RaisesAt(ls, i) {
          if i < |ls| - 1 {
            assert !RaisesAt(init, i);
          }
        }
      }
    }
  }

  /** A line that lands in a bucket: non-empty, not raising, with a known status. */
  predicate Kept(line: string) {
    line != "" && ClassifyLine(line).Some? && ClassifyLine(line).value != Dropped
  }

  /** The bucketed paths are exactly the paths of the kept lines. */
  lemma {:induction false} ParseLinesPaths(ls: seq<string>)
    requires ParseLines(ls).Some?
    ensures forall p :: p in AllPaths(ParseLines(ls).value) <==> exists l :: l in ls && Kept(l) && PathOf(l) == p
    decreases |ls|
  {
    if |ls| > 0 {
      var init := ls[..|ls| - 1];
      var last := ls[|ls| - 1];
      assert ParseLines(init).Some?;
      ParseLinesPaths(init);
      var st := ParseLines(init).value;
      var st' := ParseLines(ls).value;
      assert ls == init + [last];
      assert forall p :: p in AllPaths(st') <==> p in AllPaths(st) || (Kept(last) && p == PathOf(last));
      forall p ensures p in AllPaths(st') <==> exists l :: l in ls && Kept(l) && PathOf(l) == p {
        if p in AllPaths(st') && !(Kept(last) && p == PathOf(last)) {
          var l :| l in init && Kept(l) && PathOf(l) == p;
          assert l in ls;
        }
        if exists l :: l in ls && Kept(l) && PathOf(l) == p {
          var l :| l in ls && Kept(l) && PathOf(l) == p;
          if l != last {
            assert l in init;
          }
        }
      }
    }
  }

  /** Stripping removes one leading space from text that is otherwise unpadded. */
  lemma StripLeadingSpace(t: string)
    requires |t| > 0 && !IsSpace(t[0]) && !IsSpace(t[|t| - 1])
    ensures Strip(" " + t) == t
  {
    var s := " " + t;
    assert s[1..] == t;
    assert StripLeft(s) == t;
  }

  /** Output that strips to a single line gives just that line. */
  lemma SingleLine(stdout: string, line: string)
    requires Strip(stdout) == line && '\n' !in line
    ensures Lines(stdout) == [line]
  {
  }

  /** A single "M" line puts its path among the modified files. */
  lemma SingleModifiedLine(line: string)
    requires |line| > 3 && line[0] == 'M'
    ensures ParseLines([line]) == Some(GitStatus([line[3..]], [], [], []))
  {
    var noLines: seq<string> := [];
    assert [line][..0] == noLines;
    assert ClassifyLine(line) == Some(Modified);
    assert Step(EmptyStatus(), line) == Some(Add(EmptyStatus(), Modified, line[3..]));
    assert [] + [line[3..]] == [line[3..]];
  }

  lemma NoNewlineShifted(p: string)
    requires '\n' !in p
    ensures '\n' !in "M " + p
  {
    assert forall i :: 0 <= i < |p| ==> ("M " + p)[i + 2] == p[i];
  }

  lemma ShiftedLines(p: string)
    requires |p| >= 2 && '\n' !in p && !IsSpace(p[|p| - 1])
    ensures Lines(" M " + p) == ["M " + p]
  {
    var line := "M " + p;
    assert " M " + p == " " + line;
    StripLeadingSpace(line);
    NoNewlineShifted(p);
    SingleLine(" M " + p, line);
  }

  lemma ShiftedParse(p: string)
    requires |p| >= 2
    ensures ParseLines(["M " + p]) == Some(GitStatus([p[1..]], [], [], []))
  {
    SingleModifiedLine("M " + p);
    assert ("M " + p)[3..] == p[1..];
  }

  /**
   * The output is stripped before splitting, so a status line with a blank
   * first column, first in the output, loses a column: " M " + p is read as
   * "M " + p and its path loses its first character.
   */
  lemma StripShiftsFirstPath(p: string)
    requires |p| >= 2 && '\n' !in p && !IsSpace(p[|p| - 1])
    ensures GitStatusOf(Completed(0, " M " + p)) == GitStatus([p[1..]], [], [], [])
  {
    ShiftedLines(p);
    ShiftedParse(p);
  }

  /** A one-character status line other than "M" raises, which empties every bucket. */
  lemma OneCharacterLineEmpties()
    ensures GitStatusOf(Completed(0, "A")) == EmptyStatus()
  {
    assert !IsSpace("A"[0]);
    assert Strip("A") == "A";
    assert '\n' !in "A";
    assert Lines("A") == ["A"];
    assert RaisesAt(["A"], 0);
    ParseLinesFails(["A"]);
  }

  /** `Path(p).suffix.lower()` for every path that has a suffix. */
  function SuffixSet(paths: seq<string>): set<string> {
    set p | p in paths && Suffix(p) != "" :: Lower(Suffix(p))
  }

  lemma SuffixSetAppend(paths: seq<string>, p: string)
    ensures SuffixSet(paths + [p]) == SuffixSet(paths) + (if Suffix(p) != "" then {Lower(Suffix(p))} else {})
  {
    var l := SuffixSet(paths + [p]);
    var r := SuffixSet(paths) + (if Suffix(p) != "" then {Lower(Suffix(p))} else {});
    forall e | e in l ensures e in r {
      var q :| q in paths + [p] && Suffix(q) != "" && e == Lower(Suffix(q));
      if q != p {
        assert q in paths;
      }
    }
    forall e | e in r ensures e in l {
      if e in SuffixSet(paths) {
        var q :| q in paths && Suffix(q) != "" && e == Lower(Suffix(q));
        assert q in paths + [p];
      } else {
        assert p in paths + [p];
      }
    }
  }

  /** The inner loop of `_analyze_file_types`: adds the suffix of every path in one bucket. */
  method AddSuffixes(types0: set<string>, ghost seen: seq<string>, paths: seq<string>) returns (types: set<string>)
    requires types0 == SuffixSet(seen)
    ensures types == SuffixSet(seen + paths)
  {
    types := types0;
    var i := 0;
    assert seen + paths[..0] == seen;
    while i < |paths|
      invariant 0 <= i <= |paths|
      invariant types == SuffixSet(seen + paths[..i])
    {
      var ext := Suffix(paths[i]);
      SuffixSetAppend(seen + paths[..i], paths[i]);
      assert seen + paths[..i + 1] == seen + paths[..i] + [paths[i]];
      if ext != "" {
        types := types + {Lower(ext)};
      }
      i := i + 1;
    }
    assert paths[..|paths|] == paths;
  }

  /** `_analyze_file_types`: the suffixes over all four buckets, in dict order, lowercased. */
  method AnalyzeFileTypes(st: GitStatus) returns (types: set<string>)
    ensures types == SuffixSet(AllPaths(st))
  {
    types := {};
    var lists := [st.modified, st.added, st.deleted, st.untracked];
    ghost var seen: seq<string> := [];
    var k := 0;
    while k < |lists|
      invariant 0 <= k <= |lists|
      invariant seen == Concat(lists[..k])
      invariant types == SuffixSet(seen)
    {
      types := AddSuffixes(types, seen, lists[k]);
      assert lists[..k + 1][..k] == lists[..k];
      seen := seen + lists[k];
      k := k + 1;
    }
    assert lists[..4] == lists;
    ConcatFour(st.modified, st.added, st.deleted, st.untracked);
  }

  function Concat(xs: seq<seq<string>>): seq<string> {
    if |xs| == 0 then [] else Concat(xs[..|xs| - 1]) + xs[|xs| - 1]
  }

  lemma ConcatFour(a: seq<string>, b: seq<string>, c: seq<string>, d: seq<string>)
    ensures Concat([a, b, c, d]) == a + b + c + d
  {
    var none: seq<seq<string>> := [];
    assert [a][..0] == none;
    assert Concat([a]) == a;
    assert [a, b][..1] == [a];
    assert Concat([a, b]) == a + b;
    assert [a, b, c][..2] == [a, b];
    assert Concat([a, b, c]) == a + b + c;
    assert [a, b, c, d][..3] == [a, b, c];
  }

  lemma SuffixSetSameMembers(a: seq<string>, b: seq<string>)
    requires forall p :: p in a <==> p in b
    ensures SuffixSet(a) == SuffixSet(b)
  {
  }

  /** Every extension starts with a dot, has a character after it, and has no ASCII capitals. */
  lemma SuffixSetShape(paths: seq<string>)
    ensures forall e :: e in SuffixSet(paths) ==>
      |e| >= 2 && e[0] == '.' && forall i :: 0 <= i < |e| ==> !('A' <= e[i] <= 'Z')
  {
  }

  /** The lines `analyze_file_types_from_status` reads a path from: at least 3 characters. */
  function LongLines(ls: seq<string>): seq<string> {
    if |ls| == 0 then []
    else LongLines(ls[..|ls| - 1]) + (if |ls[|ls| - 1]| >= 3 then [ls[|ls| - 1][3..]] else [])
  }

  /** One more line adds its extension, if it is long enough and has one. */
  lemma LongLinesStep(ls: seq<string>, i: nat)
    requires i < |ls|
    ensures SuffixSet(LongLines(ls[..i + 1]))
      == SuffixSet(LongLines(ls[..i])) + (if |ls[i]| >= 3 && Suffix(ls[i][3..]) != "" then {Lower(Suffix(ls[i][3..]))} else {})
  {
    assert ls[..i + 1][..i] == ls[..i];
    if |ls[i]| >= 3 {
      SuffixSetAppend(LongLines(ls[..i]), ls[i][3..]);
    }
  }

  /** `analyze_file_types_from_status`: short lines are skipped, every other line's path is `line[3:]`. */
  method AnalyzeFileTypesFromStatus(output: string) returns (types: set<string>)
    ensures types == SuffixSet(LongLines(Lines(output)))
  {
    types := {};
    var lines := Lines(output);
    for i := 0 to |lines|
      invariant types == SuffixSet(LongLines(lines[..i]))
    {
      var line := lines[i];
      LongLinesStep(lines, i);
      if line != "" && |line| >= 3 {
        var ext := Suffix(line[3..]);
        if ext != "" {
          types := types + {Lower(ext)};
        }
      }
    }
    assert lines[..|lines|] == lines;
  }

  /** The paths read from the long lines are exactly `line[3:]` of each such line. */
  lemma {:induction false} LongLinesPaths(ls: seq<string>)
    ensures forall p :: p in LongLines(ls) <==> exists l :: l in ls && |l| >= 3 && l[3..] == p
    decreases |ls|
  {
    if |ls| > 0 {
      var init := ls[..|ls| - 1];
      LongLinesPaths(init);
      assert ls == init + [ls[|ls| - 1]];
      forall p ensures p in LongLines(ls) <==> exists l :: l in ls && |l| >= 3 && l[3..] == p {
        if p in LongLines(init) {
          var l :| l in init && |l| >= 3 && l[3..] == p;
          assert l in ls;
        }
        if exists l :: l in ls && |l| >= 3 && l[3..] == p {
          var l :| l in ls && |l| >= 3 && l[3..] == p;
          if l != ls[|ls| - 1] {
            assert l in init;
          }
        }
      }
    }
  }

  /** Every non-empty line has at least three characters and a status that lands in a bucket. */
  predicate WellFormedPorcelain(ls: seq<string>) {
    forall l :: l in ls ==> l == "" || (|l| >= 3 && Kept(l))
  }

  lemma WellFormedParses(ls: seq<string>)
    requires WellFormedPorcelain(ls)
    ensures ParseLines(ls).Some?
  {
    ParseLinesFails(ls);
    forall i | 0 <= i < |ls| ensures !RaisesAt(ls, i) {
      assert ls[i] in ls;
    }
  }

  lemma WellFormedSamePaths(ls: seq<string>)
    requires WellFormedPorcelain(ls) && ParseLines(ls).Some?
    ensures forall p :: p in LongLines(ls) <==> p in AllPaths(ParseLines(ls).value)
  {
    ParseLinesPaths(ls);
    LongLinesPaths(ls);
    forall p | p in LongLines(ls) ensures p in AllPaths(ParseLines(ls).value) {
      var l :| l in ls && |l| >= 3 && l[3..] == p;
      LongLineKept(ls, l);
    }
    forall p | p in AllPaths(ParseLines(ls).value) ensures p in LongLines(ls) {
      var l :| l in ls && Kept(l) && PathOf(l) == p;
      KeptLineLong(ls, l);
    }
  }

  lemma LongLineKept(ls: seq<string>, l: string)
    requires WellFormedPorcelain(ls) && l in ls && |l| >= 3
    ensures Kept(l) && PathOf(l) == l[3..]
  {
  }

  lemma KeptLineLong(ls: seq<string>, l: string)
    requires WellFormedPorcelain(ls) && l in ls && Kept(l)
    ensures |l| >= 3 && l[3..] == PathOf(l)
  {
  }

  /**
   * On well-formed porcelain output, where every non-empty line has at least
   * three characters and a status that lands in a bucket, both ways of
   * collecting extensions agree.
   */
  lemma FileTypesFromStatusAgrees(output: string)
    requires WellFormedPorcelain(Lines(output))
    ensures SuffixSet(LongLines(Lines(output))) == SuffixSet(AllPaths(GitStatusOf(Completed(0, output))))
  {
    var ls := Lines(output);
    WellFormedParses(ls);
    WellFormedSamePaths(ls);
    SuffixSetSameMembers(LongLines(ls), AllPaths(ParseLines(ls).value));
  }

  /** Which marker files exist in the working directory. */
  datatype Markers = Markers(
    packageJson: bool, requirementsTxt: bool, pyprojectToml: bool, cargoToml: bool, goMod: bool)

  /** The marker rule for web projects. */
  predicate WebRule(ft: set<string>, m: Markers) {
    m.packageJson && (".js" in ft || ".ts" in ft || ".tsx" in ft || ".jsx" in ft)
  }

  predicate KnownExtension(ft: set<string>) {
    ".py" in ft || ".js" in ft || ".ts" in ft || ".java" in ft || ".rs" in ft || ".go" in ft
  }

  /** `_identify_project_type`: first match wins. */
  function ProjectType(ft: set<string>, m: Markers): (r: string)
    ensures r in {"formal_verification", "quantum", "web", "python", "rust", "go", "javascript",
                  "java", "polyglot", "unknown"}
    ensures ".v" in ft ==> r == "formal_verification"
    ensures r == "quantum" <==> ".v" !in ft && (".qasm" in ft || ".qpy" in ft)
    ensures r == "web" ==> m.packageJson
    ensures r == "polyglot" <==>
      ".v" !in ft && ".qasm" !in ft && ".qpy" !in ft && !WebRule(ft, m) && !m.cargoToml && !m.goMod
      && !KnownExtension(ft) && |ft| > 2
    ensures r == "unknown" <==>
      ".v" !in ft && ".qasm" !in ft && ".qpy" !in ft && !WebRule(ft, m) && !m.cargoToml && !m.goMod
      && !KnownExtension(ft) && |ft| <= 2
  {
    if ".v" in ft then "formal_verification"
    else if ".qasm" in ft || ".qpy" in ft then "quantum"
    else if WebRule(ft, m) then "web"
    else if (m.requirementsTxt || m.pyprojectToml) && ".py" in ft then "python"
    else if m.cargoToml then "rust"
    else if m.goMod then "go"
    else if ".py" in ft then "python"
    else if ".js" in ft || ".ts" in ft then "javascript"
    else if ".java" in ft then "java"
    else if ".rs" in ft then "rust"
    else if ".go" in ft then "go"
    else if |ft| > 2 then "polyglot"
    else "unknown"
  }

  /** A `.py` change makes a Python project unless a verification, quantum, web, Cargo or Go rule fires first. */
  lemma PythonProjects(ft: set<string>, m: Markers)
    requires ".py" in ft && ".v" !in ft && ".qasm" !in ft && ".qpy" !in ft
    ensures ProjectType(ft, m) == "python" <==>
      !WebRule(ft, m) && (m.requirementsTxt || m.pyprojectToml || (!m.cargoToml && !m.goMod))
  {
  }

  /** The lowercased path matches one of 'test', 'spec', '__test__', '.test.', '.spec.'. */
  predicate IsTestFile(f: string) {
    var l := Lower(f);
    Contains(l, "test") || Contains(l, "spec") || Contains(l, "__test__")
    || Contains(l, ".test.") || Contains(l, ".spec.")
  }

  /** The three longer patterns add nothing: each contains "test" or "spec". */
  lemma TestPatternsReduce(f: string)
    ensures IsTestFile(f) <==> Contains(Lower(f), "test") || Contains(Lower(f), "spec")
  {
    var l := Lower(f);
    if Contains(l, "__test__") {
      assert "__test__" == "__" + "test" + "__";
      ContainsPart(l, "__", "test", "__");
    }
    if Contains(l, ".test.") {
      assert ".test." == "." + "test" + ".";
      ContainsPart(l, ".", "test", ".");
    }
    if Contains(l, ".spec.") {
      assert ".spec." == "." + "spec" + ".";
      ContainsPart(l, ".", "spec", ".");
    }
  }

  predicate AnyTestFile(files: seq<string>) {
    exists i :: 0 <= i < |files| && IsTestFile(files[i])
  }

  /** `_detect_current_activity`: first match wins. */
  function Activity(st: GitStatus): (r: string)
    ensures r in {"testing", "refactoring", "coding", "exploring"}
    ensures r == "testing" <==> AnyTestFile(st.modified + st.added)
  {
    if AnyTestFile(st.modified + st.added) then "testing"
    else if |st.modified| + |st.added| + |st.deleted| > 5 then "refactoring"
    else if |st.modified| > 0 && |st.added| == 0 && |st.deleted| == 0 then "coding"
    else if |st.added| > 0 then "coding"
    else if |st.deleted| > 0 then "refactoring"
    else "exploring"
  }

  /**
   * Untracked files never change the activity; the activity is "exploring"
   * exactly when nothing is modified, added or deleted; deletions alone make it
   * "refactoring".
   */
  lemma ActivityRules(st: GitStatus, untracked: seq<string>)
    ensures Activity(st) == Activity(st.(untracked := untracked))
    ensures Activity(st) == "exploring" <==> st.modified == [] && st.added == [] && st.deleted == []
    ensures st.modified == [] && st.added == [] && st.deleted != [] ==> Activity(st) == "refactoring"
    ensures Activity(st) == "coding" ==> |st.modified| + |st.added| + |st.deleted| <= 5 && (st.modified != [] || st.added != [])
  {
    if st.modified == [] && st.added == [] {
      assert st.modified + st.added == [];
    }
  }

  /**
   * `_estimate_token_budget`: the integer in the environment variable; an unset
   * variable reads as its default "150000", and text that is not an integer gives 150000.
   */
  function TokenBudget(env: Option<string>): (r: int)
    ensures env.None? ==> r == 150000
  {
    match env
    case None => 150000
    case Some(s) =>
      match ParseInt(s)
      case Some(n) => n
      case None => 150000
  }

  /** The default text parses to the default budget, so an unset variable and "150000" agree. */
  lemma DefaultBudgetText()
    ensures TokenBudget(Some(NatToString(150000))) == TokenBudget(None)
  {
    ParseNatToString(150000);
  }

  /** A variable holding a decimal number gives that number; one that is not a number gives 150000. */
  lemma TokenBudgetOf(n: nat, s: string)
    ensures TokenBudget(Some(NatToString(n))) == n
    ensures ParseInt(s) == None ==> TokenBudget(Some(s)) == 150000
  {
    ParseNatToString(n);
  }

  datatype ContextAnalysis = ContextAnalysis(
    currentActivity: string,
    fileTypes: set<string>,
    recentChanges: GitStatus,
    projectType: string,
    tokenBudgetRemaining: int)

  /** `analyze`: the git status is read once and shared by the other three analyses. */
  method Analyze(run: RunResult, markers: Markers, env: Option<string>) returns (c: ContextAnalysis)
    ensures c.recentChanges == GitStatusOf(run)
    ensures c.fileTypes == SuffixSet(AllPaths(c.recentChanges))
    ensures c.projectType == ProjectType(c.fileTypes, markers)
    ensures c.currentActivity == Activity(c.recentChanges)
    ensures c.tokenBudgetRemaining == TokenBudget(env)
  {
    var status := GetGitStatus(run);
    var fileTypes := AnalyzeFileTypes(status);
    c := ContextAnalysis(Activity(status), fileTypes, status, ProjectType(fileTypes, markers), TokenBudget(env));
  }

  /** `detect_current_work`: the activity of the current git status alone. */
  method DetectCurrentWork(run: RunResult) returns (activity: string)
    ensures activity == Activity(GitStatusOf(run))
    ensures activity == "exploring" <==> GitStatusOf(run).modified == [] && GitStatusOf(run).added == [] && GitStatusOf(run).deleted == []
  {
    var status := GetGitStatus(run);
    ActivityRules(status, status.untracked);
    activity := Activity(status);
  }
}
