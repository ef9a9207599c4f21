/**
 * The test harness's format checks: the frontmatter split of a skill file,
 * the snapshot, skill-structure and manifest validators, and the mock session
 * with its transcript.
 *
 * A file's text is `Some(content)`, a missing file `None`.
 */
module SkillExecutor {
  import opened Wrappers
  import opened Text

  /**
   * The body of a leading `---` block: what lies between an opening `---` line
   * at the very start and the first `---` line after it, as the non-greedy
   * pattern `^---\n(.*?)\n---\n` finds it.
   */
  function FrontmatterBlock(content: string): (r: Option<string>)
    ensures r.Some? ==> 4 + |r.value| + 5 <= |content|
    ensures r.Some? ==> StartsWith(content, "---\n") && StartsWith(content[4 + |r.value|..], "\n---\n")
    ensures r.Some? ==> content[4..4 + |r.value|] == r.value
    ensures !StartsWith(content, "---\n") ==> r.None?
  {
    if !StartsWith(content, "---\n") then None
    else
      match FindFrom(content, "\n---\n", 4)
      case None => None
      case Some(k) => Some(content[4..k])
  }

  /** `line.split(':', 1)` with both halves stripped. */
  function KeyValue(line: string): (string, string)
    requires ':' in line
  {
    var i := IndexOf(line, ':');
    (Strip(line[..i]), Strip(line[i + 1..]))
  }

  /** The frontmatter dict built from the block's lines in order. */
  function FrontmatterOf(lines: seq<string>): map<string, string> {
    if |lines| == 0 then map[]
    else
      var m := FrontmatterOf(lines[..|lines| - 1]);
      var line := lines[|lines| - 1];
      if ':' in line then m[KeyValue(line).0 := KeyValue(line).1] else m
  }

  /** `parse_skill_file`'s frontmatter: empty without a block, otherwise one entry per key. */
  function Frontmatter(content: string): map<string, string> {
    match FrontmatterBlock(content)
    case None => map[]
    case Some(body) => FrontmatterOf(Split(body, '\n'))
  }

  /**
   * Each line with a colon contributes the key before its first colon; a later
   * line with the same key overwrites an earlier one, and lines without a colon
   * are ignored.
   */
  lemma {:induction false} FrontmatterLastWins(lines: seq<string>, k: nat)
    requires k < |lines| && ':' in lines[k]
    requires forall j :: k < j < |lines| && ':' in lines[j] ==> KeyValue(lines[j]).0 != KeyValue(lines[k]).0
    ensures KeyValue(lines[k]).0 in FrontmatterOf(lines)
    ensures FrontmatterOf(lines)[KeyValue(lines[k]).0] == KeyValue(lines[k]).1
    decreases |lines|
  {
    if k < |lines| - 1 {
      var init := lines[..|lines| - 1];
      FrontmatterLastWins(init, k);
    }
  }

  /** Every key comes from some line with a colon. */
  lemma {:induction false} FrontmatterKeysFromLines(lines: seq<string>)
    ensures forall key :: key in FrontmatterOf(lines) ==>
      exists j :: 0 <= j < |lines| && ':' in lines[j] && KeyValue(lines[j]).0 == key
    decreases |lines|
  {
    if |lines| > 0 {
      var init := lines[..|lines| - 1];
      FrontmatterKeysFromLines(init);
      forall key | key in FrontmatterOf(lines)
        ensures exists j :: 0 <= j < |lines| && ':' in lines[j] && KeyValue(lines[j]).0 == key
      {
        if key in FrontmatterOf(init) {
          var j :| 0 <= j < |init| && ':' in init[j] && KeyValue(init[j]).0 == key;
          assert lines[j] == init[j];
        } else {
          var j := |lines| - 1;
          assert ':' in lines[j] && KeyValue(lines[j]).0 == key;
        }
      }
    }
  }

  const MissingFieldPrefix: string := "Missing required field: "
  const TimestampFormatError: string := "Invalid or missing timestamp format"
  const NoSnapshotError: string := "Snapshot file not created"
  const MissingSectionPrefix: string := "Missing required section: "
  const TooShortPrefix: string := "Skill content too short: "
  const NoSkillError: string := "Skill file not created"
  const NoManifestError: string := "Manifest file not created"
  const MissingSkillsError: string := "Missing skills section"
  const FewCategoriesSuffix: string := " categories, expected at least 2"

  /** A required snapshot field: the pattern as written in the message, and the text it matches. */
  datatype Field = Field(pattern: string, literal: string)

  function SnapshotFields(): seq<Field> {
    [Field("\\*\\*Timestamp\\*\\*:", "**Timestamp**:"),
     Field("\\*\\*Task\\*\\*:", "**Task**:"),
     Field("\\*\\*Phase\\*\\*:", "**Phase**:"),
     Field("## Context", "## Context"),
     Field("## Next Steps", "## Next Steps")]
  }

  /** `\d{4}-\d{2}-\d{2}` at the start of `s` (ASCII digits). */
  predicate DateAtStart(s: string) {
    |s| >= 10 && IsDigit(s[0]) && IsDigit(s[1]) && IsDigit(s[2]) && IsDigit(s[3]) && s[4] == '-'
    && IsDigit(s[5]) && IsDigit(s[6]) && s[7] == '-' && IsDigit(s[8]) && IsDigit(s[9])
  }

  /** A match of `\*\*Timestamp\*\*:\s*(\d{4}-\d{2}-\d{2})` at the start of `t`. */
  predicate DatedHere(t: string) {
    StartsWith(t, "**Timestamp**:") && DateAtStart(StripLeft(t[14..]))
  }

  /** A match starting at position `i` of `s`. */
  predicate DatedTimestampAt(s: string, i: nat) {
    i <= |s| && DatedHere(s[i..])
  }

  /** The search for a dated timestamp, scanning from the left. */
  function HasDatedTimestamp(s: string): (r: bool)
    decreases |s|
  {
    |s| > 0 && (DatedHere(s) || HasDatedTimestamp(s[1..]))
  }

  lemma DatedShift(s: string, i: nat)
    requires i < |s|
    ensures DatedTimestampAt(s[1..], i) <==> DatedTimestampAt(s, i + 1)
  {
    assert s[1..][i..] == s[i + 1..];
  }

  /** The scan finds a dated timestamp exactly when one occurs somewhere. */
  lemma {:induction false} HasDatedTimestampExactly(s: string)
    ensures HasDatedTimestamp(s) <==> exists i :: 0 <= i <= |s| && DatedTimestampAt(s, i)
    decreases |s|
  {
    if |s| > 0 {
      HasDatedTimestampExactly(s[1..]);
      assert DatedTimestampAt(s, 0) <==> DatedHere(s) by {
        assert s[0..] == s;
      }
      if HasDatedTimestamp(s) {
        if DatedHere(s) {
          assert DatedTimestampAt(s, 0);
        } else {
          var i :| 0 <= i <= |s[1..]| && DatedTimestampAt(s[1..], i);
          DatedShift(s, i);
        }
      }
      if exists i :: 0 <= i <= |s| && DatedTimestampAt(s, i) {
        var i :| 0 <= i <= |s| && DatedTimestampAt(s, i);
        if i > 0 {
          DatedShift(s, i - 1);
        }
      }
    } else {
      assert !DatedTimestampAt(s, 0);
    }
  }

  /** The whitespace after the colon may be any length, including none. */
  lemma DatedTimestampExample()
    ensures HasDatedTimestamp("**Timestamp**: 2024-01-31")
  {
    var s := "**Timestamp**: 2024-01-31";
    var rest := s[14..];
    assert rest == " 2024-01-31";
    assert IsSpace(rest[0]);
    var date := rest[1..];
    assert date == "2024-01-31";
    assert !IsSpace(date[0]);
    assert StripLeft(date) == date;
    assert StripLeft(rest) == date;
    assert DateAtStart(date);
    assert s[..14] == "**Timestamp**:";
    assert DatedHere(s);
  }

  /** A dated timestamp contains the field marker, so a missing marker costs two errors. */
  lemma {:induction false} DatedTimestampHasMarker(s: string)
    requires HasDatedTimestamp(s)
    ensures Contains(s, "**Timestamp**:")
    decreases |s|
  {
    if !DatedHere(s) {
      DatedTimestampHasMarker(s[1..]);
    }
  }

  /** The missing-field messages, in field order. */
  function MissingFields(content: string, fields: seq<Field>): (r: seq<string>)
    ensures |r| <= |fields|
  {
    if |fields| == 0 then []
    else
      var f := fields[|fields| - 1];
      MissingFields(content, fields[..|fields| - 1])
      + (if Contains(content, f.literal) then [] else [MissingFieldPrefix + f.pattern])
  }

  lemma {:induction false} MissingFieldsEmpty(content: string, fields: seq<Field>)
    ensures MissingFields(content, fields) == [] <==> forall i :: 0 <= i < |fields| ==> Contains(content, fields[i].literal)
    decreases |fields|
  {
    if |fields| > 0 {
      MissingFieldsEmpty(content, fields[..|fields| - 1]);
      assert forall i :: 0 <= i < |fields| - 1 ==> fields[..|fields| - 1][i] == fields[i];
    }
  }

  /** The errors `validate_snapshot_format` reports for a file's text. */
  function SnapshotErrors(content: string): seq<string> {
    MissingFields(content, SnapshotFields())
    + (if HasDatedTimestamp(content) then [] else [TimestampFormatError])
  }

  /** `validate_snapshot_format`. */
  method ValidateSnapshotFormat(content: Option<string>) returns (valid: bool, errors: seq<string>)
    ensures content.None? ==> !valid && errors == [NoSnapshotError]
    ensures content.Some? ==> errors == SnapshotErrors(content.value)
    ensures valid <==> errors == []
  {
    if content.None? {
      return false, [NoSnapshotError];
    }
    var text := content.value;
    var fields := SnapshotFields();
    errors := [];
    var i := 0;
    while i < |fields|
      invariant 0 <= i <= |fields|
      invariant errors == MissingFields(text, fields[..i])
    {
      assert fields[..i + 1][..i] == fields[..i];
      if !Contains(text, fields[i].literal) {
        errors := errors + [MissingFieldPrefix + fields[i].pattern];
      }
      i := i + 1;
    }
    assert fields[..|fields|] == fields;
    if !HasDatedTimestamp(text) {
      errors := errors + [TimestampFormatError];
    }
    valid := |errors| == 0;
  }

  /** A snapshot is valid exactly when it has all five fields and a dated timestamp. */
  lemma SnapshotFieldsPresent(content: string)
    ensures MissingFields(content, SnapshotFields()) == [] <==>
      Contains(content, "**Timestamp**:") && Contains(content, "**Task**:") && Contains(content, "**Phase**:")
      && Contains(content, "## Context") && Contains(content, "## Next Steps")
  {
    var fields := SnapshotFields();
    MissingFieldsEmpty(content, fields);
    assert fields[0].literal == "**Timestamp**:" && fields[1].literal == "**Task**:";
    assert fields[2].literal == "**Phase**:" && fields[3].literal == "## Context" && fields[4].literal == "## Next Steps";
  }

  /** A snapshot is valid exactly when it has all five fields and a dated timestamp. */
  lemma SnapshotValidExactly(content: string)
    ensures SnapshotErrors(content) == [] <==>
      Contains(content, "**Timestamp**:") && Contains(content, "**Task**:") && Contains(content, "**Phase**:")
      && Contains(content, "## Context") && Contains(content, "## Next Steps")
      && (exists i :: 0 <= i <= |content| && DatedTimestampAt(content, i))
  {
    SnapshotFieldsPresent(content);
    HasDatedTimestampExactly(content);
  }

  /** Without the timestamp marker both its missing-field error and the format error are reported. */
  lemma SnapshotNoTimestampTwoErrors(content: string)
    requires !Contains(content, "**Timestamp**:")
    ensures |SnapshotErrors(content)| >= 2
    ensures SnapshotErrors(content)[0] == MissingFieldPrefix + "\\*\\*Timestamp\\*\\*:"
    ensures SnapshotErrors(content)[|SnapshotErrors(content)| - 1] == TimestampFormatError
  {
    if HasDatedTimestamp(content) {
      DatedTimestampHasMarker(content);
    }
    var fields := SnapshotFields();
    var first := MissingFields(content, fields[..1]);
    assert fields[..1][..0] == [] && fields[..1][0] == fields[0];
    assert fields[0] == Field("\\*\\*Timestamp\\*\\*:", "**Timestamp**:");
    assert !Contains(content, fields[..1][0].literal);
    assert MissingFields(content, fields[..1][..0]) == [];
    assert first == [MissingFieldPrefix + fields[0].pattern];
    MissingFieldsPrefix(content, fields, 1);
  }

  /** The messages for a prefix of the fields come first. */
  lemma {:induction false} MissingFieldsPrefix(content: string, fields: seq<Field>, k: nat)
    requires k <= |fields|
    ensures |MissingFields(content, fields[..k])| <= |MissingFields(content, fields)|
    ensures MissingFields(content, fields) == MissingFields(content, fields[..k]) + MissingFields(content, fields)[|MissingFields(content, fields[..k])|..]
    decreases |fields|
  {
    if k < |fields| {
      var init := fields[..|fields| - 1];
      assert init[..k] == fields[..k];
      MissingFieldsPrefix(content, init, k);
    } else {
      assert fields[..k] == fields;
    }
  }

  function SkillSections(): seq<string> {
    ["# ", "## \U{1F3AF} Purpose", "## \U{1F4CB} Usage", "## \U{1F4A1} Examples"]
  }

  function MissingSections(content: string, sections: seq<string>): (r: seq<string>)
    ensures |r| <= |sections|
  {
    if |sections| == 0 then []
    else
      var s := sections[|sections| - 1];
      MissingSections(content, sections[..|sections| - 1])
      + (if Contains(content, s) then [] else [MissingSectionPrefix + s])
  }

  lemma {:induction false} MissingSectionsEmpty(content: string, sections: seq<string>)
    ensures MissingSections(content, sections) == [] <==> forall i :: 0 <= i < |sections| ==> Contains(content, sections[i])
    decreases |sections|
  {
    if |sections| > 0 {
      MissingSectionsEmpty(content, sections[..|sections| - 1]);
      assert forall i :: 0 <= i < |sections| - 1 ==> sections[..|sections| - 1][i] == sections[i];
    }
  }

  /** The errors `validate_skill_structure` reports. */
  function SkillStructureErrors(content: string): seq<string> {
    MissingSections(content, SkillSections())
    + (if |content| < 500 then [TooShortPrefix + NatToString(|content|) + " characters"] else [])
  }

  /** `validate_skill_structure`. */
  method ValidateSkillStructure(content: Option<string>) returns (valid: bool, errors: seq<string>)
    ensures content.None? ==> !valid && errors == [NoSkillError]
    ensures content.Some? ==> errors == SkillStructureErrors(content.value)
    ensures valid <==> errors == []
  {
    if content.None? {
      return false, [NoSkillError];
    }
    var text := content.value;
    var sections := SkillSections();
    errors := [];
    var i := 0;
    while i < |sections|
      invariant 0 <= i <= |sections|
      invariant errors == MissingSections(text, sections[..i])
    {
      assert sections[..i + 1][..i] == sections[..i];
      if !Contains(text, sections[i]) {
        errors := errors + [MissingSectionPrefix + sections[i]];
      }
      i := i + 1;
    }
    assert sections[..|sections|] == sections;
    if |text| < 500 {
      errors := errors + [TooShortPrefix + NatToString(|text|) + " characters"];
    }
    valid := |errors| == 0;
  }

  /** A skill file is valid exactly when it has the four sections and at least 500 characters. */
  lemma SkillStructureValidExactly(content: string)
    ensures SkillStructureErrors(content) == [] <==>
      (forall i :: 0 <= i < 4 ==> Contains(content, SkillSections()[i])) && |content| >= 500
    ensures |content| < 500 ==> |SkillStructureErrors(content)| >= 1
  {
    MissingSectionsEmpty(content, SkillSections());
  }

  function ManifestCategories(): seq<string> {
    ["meta", "development", "git", "analysis"]
  }

  /** How many of the category names occur in `text`. */
  function CountFound(text: string, names: seq<string>): (n: nat)
    ensures n <= |names|
  {
    if |names| == 0 then 0
    else CountFound(text, names[..|names| - 1]) + (if Contains(text, names[|names| - 1]) then 1 else 0)
  }

  /** The errors `validate_manifest_format` reports. */
  function ManifestErrors(content: string): seq<string> {
    var found := CountFound(Lower(content), ManifestCategories());
    (if !Contains(content, "## Skills") && !Contains(content, "# Skills") then [MissingSkillsError] else [])
    + (if found < 2 then ["Only found " + NatToString(found) + FewCategoriesSuffix] else [])
  }

  /** `validate_manifest_format`. */
  method ValidateManifestFormat(content: Option<string>) returns (valid: bool, errors: seq<string>)
    ensures content.None? ==> !valid && errors == [NoManifestError]
    ensures content.Some? ==> errors == ManifestErrors(content.value)
    ensures valid <==> errors == []
  {
    if content.None? {
      return false, [NoManifestError];
    }
    var text := content.value;
    errors := [];
    if !Contains(text, "## Skills") && !Contains(text, "# Skills") {
      errors := errors + [MissingSkillsError];
    }
    var lowered := Lower(text);
    var categories := ManifestCategories();
    var found := 0;
    var i := 0;
    while i < |categories|
      invariant 0 <= i <= |categories|
      invariant found == CountFound(lowered, categories[..i])
    {
      assert categories[..i + 1][..i] == categories[..i];
      if Contains(lowered, categories[i]) {
        found := found + 1;
      }
      i := i + 1;
    }
    assert categories[..|categories|] == categories;
    if found < 2 {
      errors := errors + ["Only found " + NatToString(found) + FewCategoriesSuffix];
    }
    valid := |errors| == 0;
  }

  /**
   * A manifest is valid exactly when it has a "# Skills" heading (which "## Skills"
   * contains) and names at least two of the four categories in any case.
   */
  lemma ManifestValidExactly(content: string)
    ensures ManifestErrors(content) == [] <==>
      Contains(content, "# Skills") && CountFound(Lower(content), ManifestCategories()) >= 2
  {
    if Contains(content, "## Skills") {
      assert "#" + "# Skills" + "" == "## Skills";
      ContainsPart(content, "#", "# Skills", "");
    }
  }

  /** A session message. */
  datatype Message = Message(role: string, content: string)

  /** The two messages `add_pattern` adds for occurrence `i`. */
  function PatternPair(pattern: string, i: nat): seq<Message> {
    [Message("user", "Do " + pattern + " for item " + NatToString(i)),
     Message("assistant", "Completed " + pattern + " for item " + NatToString(i))]
  }

  /** The messages of occurrences `0 .. n-1`. */
  function PatternMessages(pattern: string, n: nat): (r: seq<Message>)
    ensures |r| == 2 * n
  {
    if n == 0 then [] else PatternMessages(pattern, n - 1) + PatternPair(pattern, n - 1)
  }

  /** The pattern messages alternate user and assistant, two per occurrence. */
  lemma {:induction false} PatternMessagesAlternate(pattern: string, n: nat)
    ensures forall i :: 0 <= i < 2 * n ==>
      PatternMessages(pattern, n)[i].role == (if i % 2 == 0 then "user" else "assistant")
    decreases n
  {
    if n > 0 {
      PatternMessagesAlternate(pattern, n - 1);
      var prev := PatternMessages(pattern, n - 1);
      var all := PatternMessages(pattern, n);
      assert all == prev + PatternPair(pattern, n - 1);
      assert forall i :: 0 <= i < 2 * (n - 1) ==> all[i] == prev[i];
    }
  }

  /** The user message of occurrence `i` asks for item `i`. */
  lemma {:induction false} PatternMessagesRequests(pattern: string, n: nat)
    ensures forall i :: 0 <= i < n ==>
      PatternMessages(pattern, n)[2 * i].content == "Do " + pattern + " for item " + NatToString(i)
    decreases n
  {
    if n > 0 {
      PatternMessagesRequests(pattern, n - 1);
      var prev := PatternMessages(pattern, n - 1);
      var all := PatternMessages(pattern, n);
      assert all == prev + PatternPair(pattern, n - 1);
      assert forall i :: 0 <= i < 2 * (n - 1) ==> all[i] == prev[i];
    }
  }

  /** The three transcript lines of each message. */
  function TranscriptLines(messages: seq<Message>): (r: seq<string>)
    ensures |r| == 3 * |messages|
  {
    if |messages| == 0 then []
    else
      var m := messages[|messages| - 1];
      TranscriptLines(messages[..|messages| - 1]) + ["[" + Upper(m.role) + "]", m.content, ""]
  }

  /** Message `i` becomes lines `3i` (its upper-cased role in brackets), `3i+1` (its text) and `3i+2` (blank). */
  lemma {:induction false} TranscriptLinesLayout(messages: seq<Message>)
    ensures forall i :: 0 <= i < |messages| ==>
      && TranscriptLines(messages)[3 * i] == "[" + Upper(messages[i].role) + "]"
      && TranscriptLines(messages)[3 * i + 1] == messages[i].content
      && TranscriptLines(messages)[3 * i + 2] == ""
    decreases |messages|
  {
    if |messages| > 0 {
      var init := messages[..|messages| - 1];
      TranscriptLinesLayout(init);
      assert forall i :: 0 <= i < 3 * |init| ==> TranscriptLines(messages)[i] == TranscriptLines(init)[i];
    }
  }

  /** `MockSession`. */
  class MockSession {
    var messages: seq<Message>

    constructor()
      ensures messages == []
    {
      messages := [];
    }

    /** `add_message`. */
    method AddMessage(role: string, content: string)
      modifies this
      ensures messages == old(messages) + [Message(role, content)]
    {
      messages := messages + [Message(role, content)];
    }

    /** `add_pattern`: a negative count adds nothing, as `range` does. */
    method AddPattern(pattern: string, occurrences: int)
      modifies this
      ensures messages == old(messages) + PatternMessages(pattern, if occurrences < 0 then 0 else occurrences)
    {
      var n := if occurrences < 0 then 0 else occurrences;
      var i := 0;
      while i < n
        invariant 0 <= i <= n
        invariant messages == old(messages) + PatternMessages(pattern, i)
      {
        AddMessage("user", "Do " + pattern + " for item " + NatToString(i));
        AddMessage("assistant", "Completed " + pattern + " for item " + NatToString(i));
        i := i + 1;
      }
    }

    /** `export_transcript`'s text. */
    method ExportTranscript() returns (text: string)
      ensures text == Join(TranscriptLines(messages), "\n")
    {
      var lines: seq<string> := [];
      var i := 0;
      while i < |messages|
        invariant 0 <= i <= |messages|
        invariant lines == TranscriptLines(messages[..i])
      {
        assert messages[..i + 1][..i] == messages[..i];
        lines := lines + ["[" + Upper(messages[i].role) + "]", messages[i].content, ""];
        i := i + 1;
      }
      assert messages[..|messages|] == messages;
      text := Join(lines, "\n");
    }
  }
}
