/**
 * The unified-manifest generator: the frontmatter name/description parse of a
 * `SKILL.md`, the path-to-category rule, the token estimate, the scan that
 * keeps the usable skill files, and the structure of the generated manifest
 * (quick-reference rows and the per-category catalog).
 *
 * A file's text is `Some(content)`, an unreadable file `None`. Paths are
 * given as their parts relative to the skills root.
 */
module ManifestGenerator {
  import opened Wrappers
  import opened Text
  import opened Sorting

  // ---------------------------------------------------------------- frontmatter

  /**
   * The body of a leading block as `^---\n(.*?)\n---` finds it: the text after
   * an opening `---` line up to the first newline followed by `---`.
   */
  function FrontmatterBlock(content: string): (r: Option<string>)
    ensures r.Some? ==> StartsWith(content, "---\n") && 4 + |r.value| + 4 <= |content|
    ensures r.Some? ==> content[4..4 + |r.value|] == r.value && StartsWith(content[4 + |r.value|..], "\n---")
    ensures !StartsWith(content, "---\n") ==> r.None?
  {
    if !StartsWith(content, "---\n") then None
    else
      match FindFrom(content, "\n---", 4)
      case None => None
      case Some(k) => Some(content[4..k])
  }

  const Quotes: set<char> := {'"', '\''}

  /** `value.strip().strip('"\'')`. */
  function CleanValue(v: string): (r: string)
    ensures r == [] || (r[0] !in Quotes && r[|r| - 1] !in Quotes)
  {
    StripChars(Strip(v), Quotes)
  }

  /** The key before a line's first colon (stripped) and the cleaned value after it. */
  function Entry(line: string): (string, string)
    requires ':' in line
  {
    var i := IndexOf(line, ':');
    (Strip(line[..i]), CleanValue(line[i + 1..]))
  }

  /** The metadata dict built from the block's lines in order; later keys overwrite. */
  function MetadataOf(lines: seq<string>): map<string, string> {
    if |lines| == 0 then map[]
    else
      var m := MetadataOf(lines[..|lines| - 1]);
      var line := lines[|lines| - 1];
      if ':' in line then var kv := Entry(line); m[kv.0 := kv.1] else m
  }

  /** No value in the dict starts or ends with a quote: the quotes around values are removed. */
  lemma {:induction false} MetadataClean(lines: seq<string>)
    ensures forall k :: k in MetadataOf(lines) ==> Unquoted(MetadataOf(lines)[k])
    decreases |lines|
  {
    if |lines| > 0 {
      MetadataClean(lines[..|lines| - 1]);
    }
  }

  predicate Unquoted(v: string) {
    v == [] || (v[0] !in Quotes && v[|v| - 1] !in Quotes)
  }

  function Lookup(m: map<string, string>, key: string): Option<string> {
    if key in m then Some(m[key]) else None
  }

  /** `parse_skill_frontmatter`: the name and description, or nothing. */
  function ParseSkillFrontmatter(read: Option<string>): (r: (Option<string>, Option<string>))
    ensures read.None? ==> r == (None, None)
    ensures read.Some? && !StartsWith(read.value, "---\n") ==> r == (None, None)
    ensures r.0.Some? ==> Unquoted(r.0.value)
    ensures r.1.Some? ==> Unquoted(r.1.value)
  {
    match read
    case None => (None, None)
    case Some(content) =>
      match FrontmatterBlock(content)
      case None => (None, None)
      case Some(body) =>
        var lines := Split(body, '\n');
        MetadataClean(lines);
        (Lookup(MetadataOf(lines), "name"), Lookup(MetadataOf(lines), "description"))
  }

  /** A value that survives cleaning: one line, not blank at either end, not quoted at either end. */
  predicate CleanLine(v: string) {
    |v| > 0 && '\n' !in v && !IsSpace(v[0]) && !IsSpace(v[|v| - 1]) && v[0] !in Quotes && v[|v| - 1] !in Quotes
  }

  lemma CleanValueAfterSpace(v: string)
    requires CleanLine(v)
    ensures CleanValue(" " + v) == v
  {
    var t := " " + v;
    assert t[1..] == v;
    assert StripLeft(v) == v;
    assert StripLeft(t) == v;
    assert StripRight(v) == v;
    assert Strip(t) == v;
  }

  /** The first match is found when the pattern occurs at `k` and nowhere in between. */
  lemma {:induction false} FindFromFirst(s: string, pat: string, from: nat, k: nat)
    requires from <= k <= |s| && StartsWith(s[k..], pat)
    requires forall j :: from <= j < k ==> !StartsWith(s[j..], pat)
    ensures FindFrom(s, pat, from) == Some(k)
    decreases k - from
  {
    if from < k {
      FindFromFirst(s, pat, from + 1, k);
    }
  }

  /** A `key: value` line with a plain key and a clean value gives back that key and value. */
  lemma EntryOfLine(key: string, v: string)
    requires PlainKey(key)
    requires CleanLine(v)
    ensures ':' in key + ": " + v && Entry(key + ": " + v) == (key, v)
  {
    var line := key + ": " + v;
    assert line[|key|] == ':' && line[..|key|] == key;
    var i := IndexOf(line, ':');
    assert i == |key|;
    assert line[i + 1..] == " " + v;
    CleanValueAfterSpace(v);
  }

  /** A further `key: value` line adds or overwrites its key. */
  lemma MetadataSnoc(lines: seq<string>, line: string)
    requires ':' in line
    ensures MetadataOf(lines + [line]) == MetadataOf(lines)[Entry(line).0 := Entry(line).1]
  {
    assert (lines + [line])[..|lines|] == lines;
  }

  /** Two `key: value` lines: the second key is added after the first. */
  lemma MetadataTwo(l1: string, l2: string)
    requires ':' in l1 && ':' in l2
    ensures MetadataOf([l1, l2]) == map[Entry(l1).0 := Entry(l1).1][Entry(l2).0 := Entry(l2).1]
  {
    MetadataSnoc([], l1);
    assert [] + [l1] == [l1];
    MetadataSnoc([l1], l2);
    assert [l1] + [l2] == [l1, l2];
  }

  /** A key fit to be written before `: ` in a block line. */
  predicate PlainKey(key: string) {
    |key| > 0 && ':' !in key && !IsSpace(key[0]) && !IsSpace(key[|key| - 1])
  }

  /** Two lines with distinct plain keys and clean values give a dict holding both. */
  lemma ParseLines(k1: string, v1: string, l1: string, k2: string, v2: string, l2: string)
    requires PlainKey(k1) && PlainKey(k2) && k1 != k2
    requires CleanLine(v1) && CleanLine(v2)
    requires l1 == k1 + ": " + v1 && l2 == k2 + ": " + v2
    ensures Lookup(MetadataOf([l1, l2]), k1) == Some(v1) && Lookup(MetadataOf([l1, l2]), k2) == Some(v2)
  {
    EntryOfLine(k1, v1);
    EntryOfLine(k2, v2);
    MetadataPair(l1, l2, k1, v1, k2, v2);
  }

  lemma MetadataPair(l1: string, l2: string, k1: string, v1: string, k2: string, v2: string)
    requires ':' in l1 && ':' in l2 && k1 != k2
    requires Entry(l1) == (k1, v1) && Entry(l2) == (k2, v2)
    ensures Lookup(MetadataOf([l1, l2]), k1) == Some(v1) && Lookup(MetadataOf([l1, l2]), k2) == Some(v2)
  {
    MetadataTwo(l1, l2);
  }

  /** The name and description are read from the block's lines. */
  lemma ParseFromLines(content: string, body: string, l1: string, l2: string)
    requires FrontmatterBlock(content) == Some(body) && Split(body, '\n') == [l1, l2]
    ensures ParseSkillFrontmatter(Some(content)) == (Lookup(MetadataOf([l1, l2]), "name"), Lookup(MetadataOf([l1, l2]), "description"))
  {
  }

  /** No newline in `body` is followed by a dash or ends it, so no line of it closes the block. */
  predicate NoClosingLine(body: string) {
    forall j :: 0 <= j < |body| && body[j] == '\n' ==> j + 1 < |body| && body[j + 1] != '-'
  }

  /** The block is found up to the first closing line. */
  lemma BlockFound(body: string, rest: string)
    requires NoClosingLine(body)
    ensures FrontmatterBlock("---\n" + body + "\n---" + rest) == Some(body)
  {
    var content := "---\n" + body + "\n---" + rest;
    var k := 4 + |body|;
    assert content[..4] == "---\n";
    assert content[4..k] == body;
    assert content[k..][..4] == "\n---";
    forall j | 4 <= j < k
      ensures !StartsWith(content[j..], "\n---")
    {
      assert content[j] == body[j - 4];
      if body[j - 4] == '\n' {
        assert content[j + 1] == body[j - 3];
      }
    }
    FindFromFirst(content, "\n---", 4, k);
  }

  /** Two one-line texts joined by a newline: the newline between them is the only one. */
  lemma TwoLineNoClosing(l1: string, l2: string)
    requires '\n' !in l1 && '\n' !in l2 && |l2| > 0 && l2[0] != '-'
    ensures NoClosingLine(l1 + "\n" + l2)
  {
    var body := l1 + "\n" + l2;
    forall j | 0 <= j < |body| && j != |l1|
      ensures body[j] != '\n'
    {
      if j < |l1| {
        assert body[j] == l1[j];
      } else {
        assert body[j] == l2[j - |l1| - 1];
      }
    }
    assert body[|l1| + 1] == l2[0];
  }

  /** Two one-line texts joined by a newline split back apart. */
  lemma TwoLineSplit(l1: string, l2: string)
    requires '\n' !in l1 && '\n' !in l2
    ensures Split(l1 + "\n" + l2, '\n') == [l1, l2]
  {
    SplitJoin([l1, l2], '\n');
    assert Join([l1, l2], "\n") == l1 + "\n" + l2;
  }

  /**
   * A block holding a `name:` line and a `description:` line with clean
   * values yields exactly those two values.
   */
  lemma ParseWellFormed(name: string, description: string, rest: string)
    requires CleanLine(name) && CleanLine(description)
    ensures ParseSkillFrontmatter(Some("---\nname: " + name + "\ndescription: " + description + "\n---" + rest))
      == (Some(name), Some(description))
  {
    var l1 := "name: " + name;
    var l2 := "description: " + description;
    var body := l1 + "\n" + l2;
    assert "---\nname: " + name + "\ndescription: " + description + "\n---" + rest == "---\n" + body + "\n---" + rest;
    TwoLineNoClosing(l1, l2);
    TwoLineSplit(l1, l2);
    BlockFound(body, rest);
    ParseFromLines("---\n" + body + "\n---" + rest, body, l1, l2);
    NameAndDescription(name, description, l1, l2);
  }

  /** The `name:` and `description:` lines give back their values. */
  lemma NameAndDescription(name: string, description: string, l1: string, l2: string)
    requires CleanLine(name) && CleanLine(description)
    requires l1 == "name: " + name && l2 == "description: " + description
    ensures Lookup(MetadataOf([l1, l2]), "name") == Some(name)
    ensures Lookup(MetadataOf([l1, l2]), "description") == Some(description)
  {
    assert "name" + ": " == "name: " && "description" + ": " == "description: ";
    ParseLines("name", name, l1, "description", description, l2);
  }

  // ---------------------------------------------------------------- category and tokens

  /** `categorize_skill`: the first two directories, the only directory, or "root". */
  function CategorizeSkill(parts: seq<string>): string {
    if |parts| >= 3 then parts[0] + "/" + parts[1]
    else if |parts| == 2 then parts[0]
    else "root"
  }

  /**
   * The category splits back into the directories it came from: the first two
   * for a file two levels down or deeper, the only one for a file one level
   * down; a file at the top is "root".
   */
  lemma CategorizeSplits(parts: seq<string>)
    requires |parts| >= 2 ==> '/' !in parts[0]
    requires |parts| >= 3 ==> '/' !in parts[1]
    ensures |parts| >= 3 ==> Split(CategorizeSkill(parts), '/') == parts[..2]
    ensures |parts| == 2 ==> Split(CategorizeSkill(parts), '/') == parts[..1]
    ensures |parts| < 2 ==> CategorizeSkill(parts) == "root"
  {
    if |parts| >= 3 {
      SplitJoin(parts[..2], '/');
      assert Join(parts[..2], "/") == parts[0] + "/" + parts[1];
    } else if |parts| == 2 {
      SplitJoin(parts[..1], '/');
      assert Join(parts[..1], "/") == parts[0];
    }
  }

  /** `estimate_tokens`: a size band by character count; an unreadable file gets "~500". */
  function EstimateTokens(read: Option<string>): string {
    match read
    case None => "~500"
    case Some(content) =>
      if |content| < 1000 then "~300"
      else if |content| < 2000 then "~500"
      else if |content| < 3000 then "~800"
      else "~1000+"
  }

  /** The bands in increasing order. */
  function TokenRank(estimate: string): nat {
    if estimate == "~300" then 0
    else if estimate == "~500" then 1
    else if estimate == "~800" then 2
    else 3
  }

  /**
   * A longer file never gets a smaller estimate, each band starts at its
   * threshold, and an unreadable file ranks with the 1000-1999 band.
   */
  lemma EstimateTokensMonotone(a: string, b: string)
    requires |a| <= |b|
    ensures TokenRank(EstimateTokens(Some(a))) <= TokenRank(EstimateTokens(Some(b)))
    ensures |b| >= 3000 ==> EstimateTokens(Some(b)) == "~1000+"
    ensures |a| < 1000 ==> EstimateTokens(Some(a)) == "~300"
    ensures TokenRank(EstimateTokens(None)) == 1
  {
  }

  /** `extract_triggers`: no description, no triggers; otherwise the pattern matches found in it. */
  function ExtractTriggers(description: Option<string>, matches: seq<string>): (r: seq<string>)
    ensures (description.None? || description.value == "") ==> r == []
    ensures description.Some? && description.value != "" ==> r == matches
  {
    if description.None? || description.value == "" then [] else matches
  }

  // ---------------------------------------------------------------- scan

  /** A `SKILL.md` found under the root: its relative parts, its text and the trigger matches in its description. */
  datatype SkillFile = SkillFile(relParts: seq<string>, read: Option<string>, triggerMatches: seq<string>)

  /** A scanned skill as `scan_skills` records it. */
  datatype SkillEntry = SkillEntry(
    name: string,
    description: string,
    category: string,
    triggers: seq<string>,
    tokens: string,
    path: string)

  const ManifestName: string := "UNIFIED_SKILL_MANIFEST.md"

  /** The file's full path under `root`. */
  function FullPath(root: string, parts: seq<string>): string {
    root + "/" + Join(parts, "/")
  }

  /** The manifest itself, and anything under the generator's own directory, is skipped. */
  predicate Skipped(root: string, f: SkillFile) {
    f.relParts == [ManifestName] || Contains(FullPath(root, f.relParts), "manifest-generator")
  }

  /** What the scan records for one file, if anything. */
  function EntryOf(root: string, f: SkillFile): (r: Option<SkillEntry>)
    ensures r.Some? ==> !Skipped(root, f) && r.value.name != "" && r.value.description != ""
    ensures r.Some? ==> r.value.category == CategorizeSkill(f.relParts)
  {
    if Skipped(root, f) then None
    else
      var (name, description) := ParseSkillFrontmatter(f.read);
      if name.None? || name.value == "" || description.None? || description.value == "" then None
      else
        Some(SkillEntry(
          name.value,
          description.value,
          CategorizeSkill(f.relParts),
          ExtractTriggers(description, f.triggerMatches),
          EstimateTokens(f.read),
          ReplaceChar(Join(f.relParts, "/"), '\\', '/')))
  }

  /** The scan's result, in file order. */
  function ScanOf(root: string, files: seq<SkillFile>): (r: seq<SkillEntry>)
    ensures |r| <= |files|
  {
    if |files| == 0 then []
    else
      var init := ScanOf(root, files[..|files| - 1]);
      match EntryOf(root, files[|files| - 1])
      case None => init
      case Some(e) => init + [e]
  }

  /** Every recorded skill comes from a file that is not skipped and has a name and a description. */
  lemma {:induction false} ScanFacts(root: string, files: seq<SkillFile>)
    ensures forall e :: e in ScanOf(root, files) ==>
      exists i :: 0 <= i < |files| && EntryOf(root, files[i]) == Some(e)
    ensures forall e :: e in ScanOf(root, files) ==> e.name != "" && e.description != ""
    decreases |files|
  {
    if |files| > 0 {
      var init := files[..|files| - 1];
      ScanFacts(root, init);
      forall e | e in ScanOf(root, files)
        ensures exists i :: 0 <= i < |files| && EntryOf(root, files[i]) == Some(e)
      {
        if e in ScanOf(root, init) {
          var i :| 0 <= i < |init| && EntryOf(root, init[i]) == Some(e);
          assert files[i] == init[i];
        } else {
          assert EntryOf(root, files[|files| - 1]) == Some(e);
        }
      }
    }
  }

  /** What the scan records for each file, in walk order. */
  function Outcomes(root: string, files: seq<SkillFile>): (r: seq<Option<SkillEntry>>)
    ensures |r| == |files| && forall i :: 0 <= i < |files| ==> r[i] == EntryOf(root, files[i])
  {
    seq(|files|, i requires 0 <= i < |files| => EntryOf(root, files[i]))
  }

  /** The present values, in order. */
  function Present(os: seq<Option<SkillEntry>>): seq<SkillEntry> {
    if |os| == 0 then []
    else Present(os[..|os| - 1]) + (match os[|os| - 1] case Some(e) => [e] case None => [])
  }

  /** The positions of the present values, in order. */
  function PresentIndices(os: seq<Option<SkillEntry>>): (r: seq<nat>)
    ensures forall k :: 0 <= k < |r| ==> r[k] < |os|
  {
    if |os| == 0 then []
    else PresentIndices(os[..|os| - 1]) + (if os[|os| - 1].Some? then [|os| - 1] else [])
  }

  /** The positions of the files the scan keeps, in walk order. */
  function KeptIndices(root: string, files: seq<SkillFile>): (r: seq<nat>)
    ensures forall k :: 0 <= k < |r| ==> r[k] < |files|
  {
    PresentIndices(Outcomes(root, files))
  }

  /** `Present` lists the k-th present value at the k-th present position. */
  lemma {:induction false} PresentAtIndices(os: seq<Option<SkillEntry>>)
    ensures var ks := PresentIndices(os);
      && |Present(os)| == |ks|
      && forall k :: 0 <= k < |ks| ==> os[ks[k]] == Some(Present(os)[k])
    decreases |os|
  {
    if |os| > 0 {
      var n := |os|;
      var init := os[..n - 1];
      PresentAtIndices(init);
      assert forall j :: 0 <= j < n - 1 ==> os[j] == init[j];
      if os[n - 1].Some? {
        assert PresentIndices(os) == PresentIndices(init) + [n - 1];
        assert Present(os) == Present(init) + [os[n - 1].value];
      }
    }
  }

  /** The present positions increase, and a position is listed exactly when its value is present. */
  lemma {:induction false} PresentIndicesOrdered(os: seq<Option<SkillEntry>>)
    ensures var ks := PresentIndices(os);
      && (forall k, l :: 0 <= k < l < |ks| ==> ks[k] < ks[l])
      && (forall i :: 0 <= i < |os| ==> (i in ks <==> os[i].Some?))
    decreases |os|
  {
    if |os| > 0 {
      var n := |os|;
      var init := os[..n - 1];
      PresentIndicesOrdered(init);
      assert forall j :: 0 <= j < n - 1 ==> os[j] == init[j];
      assert n - 1 !in PresentIndices(init);
    }
  }

  /**
   * `Present` lists the k-th present value at the k-th present position; the
   * positions increase, and a position is listed exactly when its value is present.
   */
  lemma PresentExactly(os: seq<Option<SkillEntry>>)
    ensures var ks := PresentIndices(os);
      && |Present(os)| == |ks|
      && (forall k :: 0 <= k < |ks| ==> os[ks[k]] == Some(Present(os)[k]))
      && (forall k, l :: 0 <= k < l < |ks| ==> ks[k] < ks[l])
      && (forall i :: 0 <= i < |os| ==> (i in ks <==> os[i].Some?))
  {
    PresentAtIndices(os);
    PresentIndicesOrdered(os);
  }

  /** The scan is the present outcomes of the files. */
  lemma {:induction false} ScanIsPresent(root: string, files: seq<SkillFile>)
    ensures ScanOf(root, files) == Present(Outcomes(root, files))
    decreases |files|
  {
    if |files| > 0 {
      var init := files[..|files| - 1];
      ScanIsPresent(root, init);
      assert Outcomes(root, files)[..|files| - 1] == Outcomes(root, init);
    }
  }

  /**
   * The scan lists exactly the files `EntryOf` keeps, in walk order: its
   * k-th entry is the entry of the k-th kept file, the kept positions
   * increase, and a position is kept exactly when its file yields an entry.
   */
  lemma ScanComplete(root: string, files: seq<SkillFile>)
    ensures var ks := KeptIndices(root, files);
      && |ScanOf(root, files)| == |ks|
      && (forall k :: 0 <= k < |ks| ==> EntryOf(root, files[ks[k]]) == Some(ScanOf(root, files)[k]))
      && (forall k, l :: 0 <= k < l < |ks| ==> ks[k] < ks[l])
      && (forall i :: 0 <= i < |files| ==> (i in ks <==> EntryOf(root, files[i]).Some?))
  {
    ScanIsPresent(root, files);
    PresentExactly(Outcomes(root, files));
  }

  /** `scan_skills`. */
  method ScanSkills(root: string, files: seq<SkillFile>) returns (skills: seq<SkillEntry>)
    ensures skills == ScanOf(root, files)
  {
    skills := [];
    var i := 0;
    while i < |files|
      invariant 0 <= i <= |files|
      invariant skills == ScanOf(root, files[..i])
    {
      assert files[..i + 1][..i] == files[..i];
      var f := files[i];
      if f.relParts != [ManifestName] && !Contains(FullPath(root, f.relParts), "manifest-generator") {
        var (name, description) := ParseSkillFrontmatter(f.read);
        if name.Some? && name.value != "" && description.Some? && description.value != "" {
          skills := skills + [SkillEntry(
            name.value,
            description.value,
            CategorizeSkill(f.relParts),
            ExtractTriggers(description, f.triggerMatches),
            EstimateTokens(f.read),
            ReplaceChar(Join(f.relParts, "/"), '\\', '/'))];
        }
      }
      i := i + 1;
    }
    assert files[..|files|] == files;
  }

  // ---------------------------------------------------------------- manifest

  function TopSkills(): seq<string> {
    ["session-snapshot", "skill-extractor", "diff-summariser", "repo-briefing", "lean-plan"]
  }

  function KnownCategories(): seq<string> {
    ["development", "git", "analysis/code", "analysis/formal", "meta", "root"]
  }

  function CategoryTitle(key: string): string {
    if key == "development" then "\U{1F680} Development Skills"
    else if key == "git" then "\U{1F3AF} Git & Repository Skills"
    else if key == "analysis/code" then "\U{1F50D} Analysis: Code Quality"
    else if key == "analysis/formal" then "\U{1F4D0} Analysis: Formal Verification"
    else if key == "meta" then "\U{2B50} Meta Skills"
    else if key == "root" then "\U{1F4C1} Root Level Skills"
    else key
  }

  function CategoryDescription(key: string): string {
    if key == "development" then "Active coding and refactoring workflows"
    else if key == "git" then "Version control and repository operations"
    else if key == "analysis/code" then "Inspect codebases for quality, security, and maintainability"
    else if key == "analysis/formal" then "Formal verification and proof system analysis (Coq, Lean, etc.)"
    else if key == "meta" then "Skills that improve the skills system itself"
    else if key == "root" then "Skills in root directory (legacy/uncategorized)"
    else "Various workflows"
  }

  /** `s[:n]` for `n >= 0`. */
  function Prefix<T>(s: seq<T>, n: nat): (r: seq<T>)
    ensures |r| <= n && |r| <= |s| && r == s[..|r|]
    ensures |s| >= n ==> |r| == n
  {
    if |s| <= n then s else s[..n]
  }

  /** A quick-reference row. */
  datatype QuickRow = QuickRow(name: string, category: string, triggers: string, tokens: string)

  function QuickRowOf(s: SkillEntry): QuickRow {
    QuickRow(s.name, s.category, if s.triggers != [] then Join(Prefix(s.triggers, 2), ", ") else "Various", s.tokens)
  }

  /** `next(s for s in skills if s['name'] == name)`. */
  function FirstNamed(skills: seq<SkillEntry>, name: string): Option<SkillEntry> {
    if |skills| == 0 then None
    else if skills[0].name == name then Some(skills[0])
    else FirstNamed(skills[1..], name)
  }

  /** A skill is found exactly when one carries the name, and it is the earliest such skill. */
  lemma {:induction false} FirstNamedFacts(skills: seq<SkillEntry>, name: string)
    ensures FirstNamed(skills, name).Some? <==> exists i :: 0 <= i < |skills| && skills[i].name == name
    ensures FirstNamed(skills, name).Some? ==>
      exists i :: (0 <= i < |skills| && skills[i] == FirstNamed(skills, name).value && skills[i].name == name
        && forall j :: 0 <= j < i ==> skills[j].name != name)
    decreases |skills|
  {
    if |skills| > 0 && skills[0].name != name {
      var tail := skills[1..];
      FirstNamedFacts(tail, name);
      assert forall i :: 1 <= i < |skills| ==> skills[i] == tail[i - 1];
      if FirstNamed(tail, name).Some? {
        var i :| 0 <= i < |tail| && tail[i] == FirstNamed(tail, name).value && tail[i].name == name
          && forall j :: 0 <= j < i ==> tail[j].name != name;
        assert skills[i + 1] == tail[i];
      }
    }
  }

  /** One row for each of `names` that some skill carries, in the order of `names`. */
  function QuickRows(skills: seq<SkillEntry>, names: seq<string>): (r: seq<QuickRow>)
    ensures |r| <= |names|
  {
    if |names| == 0 then [] else RowFor(skills, names[0]) + QuickRows(skills, names[1..])
  }

  /** The row for one name: the first skill carrying it, if any. */
  function RowFor(skills: seq<SkillEntry>, name: string): seq<QuickRow> {
    match FirstNamed(skills, name)
    case Some(s) => [QuickRowOf(s)]
    case None => []
  }

  /** `xs` is `ys` with some elements left out. */
  predicate SubsequenceOf<T(==)>(xs: seq<T>, ys: seq<T>)
    decreases |ys|
  {
    if |xs| == 0 then true
    else if |ys| == 0 then false
    else if xs[0] == ys[0] then SubsequenceOf(xs[1..], ys[1..])
    else SubsequenceOf(xs, ys[1..])
  }

  function RowNames(rows: seq<QuickRow>): (r: seq<string>)
    ensures |r| == |rows| && forall i :: 0 <= i < |rows| ==> r[i] == rows[i].name
  {
    seq(|rows|, i requires 0 <= i < |rows| => rows[i].name)
  }

  /**
   * The rows follow `names` in order, there is a row for a name exactly when
   * some skill carries it, and that row shows the first such skill.
   */
  lemma {:induction false} QuickRowsFacts(skills: seq<SkillEntry>, names: seq<string>)
    ensures SubsequenceOf(RowNames(QuickRows(skills, names)), names)
    ensures forall n :: n in RowNames(QuickRows(skills, names)) <==>
      n in names && exists i :: 0 <= i < |skills| && skills[i].name == n
    ensures forall row :: row in QuickRows(skills, names) ==>
      (FirstNamed(skills, row.name) == Some(Unrow(skills, row)) && QuickRowOf(Unrow(skills, row)) == row)
  {
    QuickRowsOrder(skills, names);
    QuickRowsPresent(skills, names);
    QuickRowsFirst(skills, names);
  }

  lemma {:induction false} QuickRowsOrder(skills: seq<SkillEntry>, names: seq<string>)
    ensures SubsequenceOf(RowNames(QuickRows(skills, names)), names)
    decreases |names|
  {
    if |names| > 0 {
      FirstNamedFacts(skills, names[0]);
      QuickRowsOrder(skills, names[1..]);
      var rest := QuickRows(skills, names[1..]);
      var r := QuickRows(skills, names);
      match FirstNamed(skills, names[0])
      case None =>
        assert r == rest;
        SubsequenceSkip(RowNames(rest), names);
      case Some(s) =>
        assert r == [QuickRowOf(s)] + rest;
        assert RowNames(r) == [names[0]] + RowNames(rest);
        assert RowNames(r)[1..] == RowNames(rest);
    }
  }

  lemma {:induction false} QuickRowsPresent(skills: seq<SkillEntry>, names: seq<string>)
    ensures forall n :: n in RowNames(QuickRows(skills, names)) <==>
      n in names && exists i :: 0 <= i < |skills| && skills[i].name == n
    decreases |names|
  {
    if |names| > 0 {
      FirstNamedFacts(skills, names[0]);
      QuickRowsPresent(skills, names[1..]);
      var rest := QuickRows(skills, names[1..]);
      var r := QuickRows(skills, names);
      assert forall n :: n in names <==> n == names[0] || n in names[1..];
      match FirstNamed(skills, names[0])
      case None =>
        assert r == rest;
      case Some(s) =>
        assert r == [QuickRowOf(s)] + rest;
        assert RowNames(r) == [names[0]] + RowNames(rest);
    }
  }

  lemma {:induction false} QuickRowsFirst(skills: seq<SkillEntry>, names: seq<string>)
    ensures forall row :: row in QuickRows(skills, names) ==>
      (FirstNamed(skills, row.name) == Some(Unrow(skills, row)) && QuickRowOf(Unrow(skills, row)) == row)
    decreases |names|
  {
    if |names| > 0 {
      FirstNamedFacts(skills, names[0]);
      QuickRowsFirst(skills, names[1..]);
      var rest := QuickRows(skills, names[1..]);
      var r := QuickRows(skills, names);
      match FirstNamed(skills, names[0])
      case None =>
        assert r == rest;
      case Some(s) =>
        assert r == [QuickRowOf(s)] + rest;
    }
  }

  /** The skill a row was built from. */
  function Unrow(skills: seq<SkillEntry>, row: QuickRow): SkillEntry {
    match FirstNamed(skills, row.name)
    case Some(s) => s
    case None => SkillEntry(row.name, "", row.category, [], row.tokens, "")
  }

  lemma {:induction false} SubsequenceSkip<T>(xs: seq<T>, ys: seq<T>)
    requires |ys| > 0 && SubsequenceOf(xs, ys[1..])
    ensures SubsequenceOf(xs, ys)
    decreases |xs| + |ys|
  {
    if |xs| > 0 && xs[0] == ys[0] {
      SubsequenceTail(xs, ys[1..]);
    }
  }

  lemma {:induction false} SubsequenceTail<T>(xs: seq<T>, ys: seq<T>)
    requires |xs| > 0 && SubsequenceOf(xs, ys)
    ensures SubsequenceOf(xs[1..], ys)
    decreases |xs| + |ys|
  {
    if |ys| > 0 {
      if xs[0] == ys[0] {
        SubsequenceSkip(xs[1..], ys);
      } else {
        SubsequenceTail(xs, ys[1..]);
        SubsequenceSkip(xs[1..], ys);
      }
    }
  }

  /** `categories[key]`: the skills of one category, in scan order. */
  function InCategory(skills: seq<SkillEntry>, key: string): (r: seq<SkillEntry>)
    ensures forall s :: s in r <==> s in skills && s.category == key
    ensures |r| <= |skills|
  {
    if |skills| == 0 then []
    else InCategory(skills[..|skills| - 1], key) + (if skills[|skills| - 1].category == key then [skills[|skills| - 1]] else [])
  }

  /** The keys of the `categories` dict. */
  function CategoriesOf(skills: seq<SkillEntry>): set<string> {
    set s | s in skills :: s.category
  }

  function NameOf(s: SkillEntry): string {
    s.name
  }

  /** A catalog section: its heading, description and skills in name order. */
  datatype CatalogSection = CatalogSection(key: string, title: string, description: string, skills: seq<SkillEntry>)

  /** A catalog entry's summary: the description up to its first full stop, with the stop. */
  function Summary(s: SkillEntry): string {
    Split(s.description, '.')[0] + "."
  }

  /** A catalog entry's trigger list: the first three, quoted, or a placeholder. */
  function TriggerList(s: SkillEntry): string {
    if s.triggers == [] then "Various triggers"
    else
      var shown := Prefix(s.triggers, 3);
      Join(seq(|shown|, i requires 0 <= i < |shown| => "\"" + shown[i] + "\""), ", ")
  }

  /** One section for each of `keys` that some skill carries, in the order of `keys`. */
  function Sections(skills: seq<SkillEntry>, keys: seq<string>): (r: seq<CatalogSection>)
    ensures |r| <= |keys|
  {
    if |keys| == 0 then []
    else
      var k := keys[0];
      (if k in CategoriesOf(skills)
       then [CatalogSection(k, CategoryTitle(k), CategoryDescription(k), SortByKey(InCategory(skills, k), NameOf))]
       else [])
      + Sections(skills, keys[1..])
  }

  function SectionKeys(sections: seq<CatalogSection>): (r: seq<string>)
    ensures |r| == |sections| && forall i :: 0 <= i < |sections| ==> r[i] == sections[i].key
  {
    seq(|sections|, i requires 0 <= i < |sections| => sections[i].key)
  }

  /** The manifest's structure: the skill count, quick reference, catalog and category count. */
  datatype Manifest = Manifest(total: nat, quickReference: seq<QuickRow>, catalog: seq<CatalogSection>, categoryCount: nat)

  function ManifestOf(skills: seq<SkillEntry>): Manifest {
    Manifest(|skills|, QuickRows(skills, TopSkills()), Sections(skills, KnownCategories()), |CategoriesOf(skills)|)
  }

  /**
   * The sections follow `keys` in order, there is one for a key exactly when
   * some skill carries it, and each lists exactly that category's skills,
   * sorted by name, same-named skills in scan order.
   */
  lemma {:induction false} SectionsFacts(skills: seq<SkillEntry>, keys: seq<string>)
    ensures SubsequenceOf(SectionKeys(Sections(skills, keys)), keys)
    ensures forall k :: k in SectionKeys(Sections(skills, keys)) <==> k in keys && k in CategoriesOf(skills)
    ensures forall sec :: sec in Sections(skills, keys) ==>
      && sec.skills == SortByKey(InCategory(skills, sec.key), NameOf)
      && sec.title == CategoryTitle(sec.key)
    decreases |keys|
  {
    if |keys| > 0 {
      SectionsFacts(skills, keys[1..]);
      var rest := Sections(skills, keys[1..]);
      var r := Sections(skills, keys);
      if keys[0] in CategoriesOf(skills) {
        assert SectionKeys(r) == [keys[0]] + SectionKeys(rest);
        assert SectionKeys(r)[1..] == SectionKeys(rest);
      } else {
        assert r == rest;
        SubsequenceSkip(SectionKeys(rest), keys);
      }
    }
  }

  /** A section's skills are its category's skills, sorted by name, with ties in scan order. */
  lemma SectionSorted(skills: seq<SkillEntry>, key: string)
    ensures SortedByKey(SortByKey(InCategory(skills, key), NameOf), NameOf)
    ensures multiset(SortByKey(InCategory(skills, key), NameOf)) == multiset(InCategory(skills, key))
    ensures forall n :: WithKey(SortByKey(InCategory(skills, key), NameOf), NameOf, n) == WithKey(InCategory(skills, key), NameOf, n)
  {
    SortByKeyFacts(InCategory(skills, key), NameOf);
  }

  /**
   * The catalog lists only the six known categories, in their fixed order; a
   * skill in any other category appears in no section but still counts among
   * the categories.
   */
  lemma CatalogFacts(skills: seq<SkillEntry>)
    ensures SubsequenceOf(SectionKeys(ManifestOf(skills).catalog), KnownCategories())
    ensures forall s :: s in skills && s.category !in KnownCategories() ==>
      && (forall sec :: sec in ManifestOf(skills).catalog ==> s !in sec.skills)
      && s.category in CategoriesOf(skills)
    ensures ManifestOf(skills).categoryCount == |CategoriesOf(skills)|
  {
    var catalog := Sections(skills, KnownCategories());
    SectionsFacts(skills, KnownCategories());
    forall s, sec | s in skills && s.category !in KnownCategories() && sec in catalog
      ensures s !in sec.skills
    {
      assert sec.key in SectionKeys(catalog) by {
        var i :| 0 <= i < |catalog| && catalog[i] == sec;
        assert SectionKeys(catalog)[i] == sec.key;
      }
      assert s.category != sec.key;
      assert s !in InCategory(skills, sec.key);
      SectionSorted(skills, sec.key);
      assert multiset(sec.skills)[s] == multiset(InCategory(skills, sec.key))[s];
    }
  }

  /** The category map `generate_manifest` builds: each skill appended to its category's list. */
  function GroupOf(skills: seq<SkillEntry>): map<string, seq<SkillEntry>> {
    if |skills| == 0 then map[]
    else
      var g := GroupOf(skills[..|skills| - 1]);
      var s := skills[|skills| - 1];
      g[s.category := (if s.category in g then g[s.category] else []) + [s]]
  }

  /** The map has one key per category present, holding that category's skills in scan order. */
  lemma {:induction false} GroupFacts(skills: seq<SkillEntry>)
    ensures GroupOf(skills).Keys == CategoriesOf(skills)
    ensures forall k :: k in GroupOf(skills) ==> GroupOf(skills)[k] == InCategory(skills, k)
    decreases |skills|
  {
    if |skills| > 0 {
      var n := |skills| - 1;
      var init := skills[..n];
      var s := skills[n];
      GroupFacts(init);
      assert skills == init + [s];
      assert CategoriesOf(skills) == CategoriesOf(init) + {s.category};
      forall k | k in GroupOf(skills)
        ensures GroupOf(skills)[k] == InCategory(skills, k)
      {
        if k == s.category && k !in GroupOf(init) {
          EmptyCategory(init, k);
        }
      }
    }
  }

  /** The first pass of `generate_manifest`: each skill appended to its category's list. */
  method GroupCategories(skills: seq<SkillEntry>) returns (categories: map<string, seq<SkillEntry>>)
    ensures categories == GroupOf(skills)
  {
    categories := map[];
    var i := 0;
    while i < |skills|
      invariant 0 <= i <= |skills|
      invariant categories == GroupOf(skills[..i])
    {
      assert skills[..i + 1][..i] == skills[..i];
      var s := skills[i];
      categories := categories[s.category := (if s.category in categories then categories[s.category] else []) + [s]];
      i := i + 1;
    }
    assert skills[..|skills|] == skills;
  }

  lemma QuickRowsStep(skills: seq<SkillEntry>, top: seq<string>, t: nat)
    requires t < |top|
    ensures QuickRows(skills, top[t..]) == RowFor(skills, top[t]) + QuickRows(skills, top[t + 1..])
  {
    assert top[t..][1..] == top[t + 1..];
  }

  lemma AppendAssociates<T>(a: seq<T>, b: seq<T>, c: seq<T>)
    ensures (a + b) + c == a + (b + c)
  {
  }

  /** The quick-reference table: the first skill of each top name that is present. */
  method QuickReference(skills: seq<SkillEntry>, top: seq<string>) returns (rows: seq<QuickRow>)
    ensures rows == QuickRows(skills, top)
  {
    rows := [];
    assert top[0..] == top;
    for t := 0 to |top|
      invariant rows + QuickRows(skills, top[t..]) == QuickRows(skills, top)
    {
      QuickRowsStep(skills, top, t);
      ghost var here := RowFor(skills, top[t]);
      AppendAssociates(rows, here, QuickRows(skills, top[t + 1..]));
      var found := FirstNamed(skills, top[t]);
      if found.Some? {
        assert here == [QuickRowOf(found.value)];
        rows := rows + [QuickRowOf(found.value)];
      } else {
        assert rows + here == rows;
      }
    }
    assert top[|top|..] == [];
  }

  lemma SectionsStep(skills: seq<SkillEntry>, known: seq<string>, c: nat)
    requires c < |known|
    ensures Sections(skills, known[c..])
      == (if known[c] in CategoriesOf(skills)
          then [CatalogSection(known[c], CategoryTitle(known[c]), CategoryDescription(known[c]), SortByKey(InCategory(skills, known[c]), NameOf))]
          else [])
      + Sections(skills, known[c + 1..])
  {
    assert known[c..][1..] == known[c + 1..];
  }

  /** The catalog: a section for each known category present in the map, skills sorted by name. */
  method Catalog(skills: seq<SkillEntry>, categories: map<string, seq<SkillEntry>>, known: seq<string>)
    returns (catalog: seq<CatalogSection>)
    requires categories == GroupOf(skills)
    ensures catalog == Sections(skills, known)
  {
    GroupFacts(skills);
    catalog := [];
    assert known[0..] == known;
    for c := 0 to |known|
      invariant catalog + Sections(skills, known[c..]) == Sections(skills, known)
    {
      SectionsStep(skills, known, c);
      var k := known[c];
      if k in categories {
        var section := CatalogSection(k, CategoryTitle(k), CategoryDescription(k), SortByKey(categories[k], NameOf));
        AppendAssociates(catalog, [section], Sections(skills, known[c + 1..]));
        catalog := catalog + [section];
      }
    }
    assert known[|known|..] == [];
  }

  /** `generate_manifest`'s structure: the category map, the quick reference, the catalog, the counts. */
  method GenerateManifest(skills: seq<SkillEntry>) returns (m: Manifest)
    ensures m == ManifestOf(skills)
  {
    var categories := GroupCategories(skills);
    var rows := QuickReference(skills, TopSkills());
    var catalog := Catalog(skills, categories, KnownCategories());
    GroupFacts(skills);
    m := Manifest(|skills|, rows, catalog, |categories|);
  }

  lemma {:induction false} EmptyCategory(skills: seq<SkillEntry>, key: string)
    requires key !in CategoriesOf(skills)
    ensures InCategory(skills, key) == []
    decreases |skills|
  {
    if |skills| > 0 {
      var init := skills[..|skills| - 1];
      assert CategoriesOf(init) <= CategoriesOf(skills) by {
        forall x | x in init ensures x in skills { }
      }
      EmptyCategory(init, key);
    }
  }
}
