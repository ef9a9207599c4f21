/**
 * The skill validation suite: the structure, content, documentation,
 * parameter-table and example checks of one skill file, its quality score and
 * validity, the per-directory result map and the report totals.
 *
 * The regular-expression searches that are not plain substring or line tests
 * (the section bodies, emoji count, code blocks, `claude skills use` commands,
 * the parameter and examples sections and the tables inside the former) are
 * inputs gathered in `Scans`.
 */
module ValidateSkills {
  import opened Wrappers
  import opened Text
  import opened Sorting

  /** A `## title` section and the text up to the next heading. */
  datatype Section = Section(title: string, body: string)

  /** What the examples section holds: `###` headings naming basic or advanced use, and code blocks. */
  datatype ExampleScan = ExampleScan(basicHeadings: nat, advancedHeadings: nat, codeBlocks: nat)

  /** The results of the pattern searches over a skill file. */
  datatype Scans = Scans(
    sections: seq<Section>,
    emojiCount: nat,
    codeBlocks: nat,
    commands: nat,
    parameterSection: Option<string>,
    parameterTableHeaders: seq<string>,
    examples: Option<ExampleScan>)

  /** A file read that succeeded, or the reason it failed. */
  datatype ReadOutcome = Read(content: string) | ReadFailed(reason: string)

  /** What the checks append, list by list. */
  datatype Messages = Messages(errors: seq<string>, warnings: seq<string>, recommendations: seq<string>)

  datatype ValidationResult = ValidationResult(
    file: string,
    skillName: string,
    category: string,
    valid: bool,
    errors: seq<string>,
    warnings: seq<string>,
    recommendations: seq<string>,
    qualityScore: real)

  // ---------------------------------------------------------------- messages

  const MissingSectionPrefix: string := "Missing required section: "
  const MissingHeaderPrefix: string := "Missing or incorrect main header: '# "
  const OrderWarning: string := "Sections may not be in optimal order"
  const ShortSectionSuffix: string := "' appears to be very short or empty"
  const ContentLengthPrefix: string := "Content length ("
  const QuiteShortSuffix: string := ") is quite short"
  const TooShortSuffix: string := ") is too short for a comprehensive skill"
  const MoreEmojisRecommendation: string := "Consider adding more emojis for better section identification and readability"
  const MoreCodeWarning: string := "Consider adding more code examples"
  const MoreCommandsWarning: string := "Consider adding more usage examples with 'claude skills use' commands"
  const TableFormatWarning: string := "Parameter section should use table format for better readability"
  const OutputExamplesWarning: string := "Consider adding output examples section"
  const MissingParametersError: string := "Missing parameter documentation section"
  const NoTableWarning: string := "Parameter section should use markdown table format"
  const MissingHeadersPrefix: string := "Parameter table missing headers: "
  const MissingExamplesError: string := "Missing examples section"
  const BasicExamplesWarning: string := "Consider adding basic usage examples"
  const AdvancedExamplesWarning: string := "Consider adding advanced usage examples"
  const MultipleExamplesWarning: string := "Examples section should include multiple code examples"
  const ReadErrorPrefix: string := "File reading error: "
  const NoResultsMessage: string := "No validation results available. Run validate_all_skills() first."

  // ---------------------------------------------------------------- structure

  /** The six emoji headings and the notes heading exactly as the validator's source text spells them. */
  const SectionHeadingsAsWritten: seq<string> := [
    "## \U{F8FF}\U{FC}\U{E9}\U{D8} Purpose",
    "## \U{F8FF}\U{FC}\U{F6}\U{C4} Key Features",
    "## \U{F8FF}\U{FC}\U{EC}\U{E3} Usage",
    "## \U{F8FF}\U{FC}\U{E9}\U{F5}\U{D4}\U{220F}\U{E8} Parameters",
    "## \U{F8FF}\U{FC}\U{ED}\U{B0} Examples",
    "## \U{F8FF}\U{FC}\U{E9}\U{C5} Output",
    "## \U{201A}\U{F6}\U{2020}\U{D4}\U{220F}\U{E8} Important Notes"]

  /** The same headings with the emoji they were meant to carry. */
  const SectionHeadings: seq<string> := [
    "## \U{1F3AF} Purpose",
    "## \U{1F680} Key Features",
    "## \U{1F4CB} Usage",
    "## \U{1F39B}\U{FE0F} Parameters",
    "## \U{1F4A1} Examples",
    "## \U{1F381} Output",
    "## \U{26A0}\U{FE0F} Important Notes"]

  /** The required headings as written: the title, then the section headings. */
  function RequiredSectionsAsWritten(skillName: string): seq<string> {
    ["# " + skillName] + SectionHeadingsAsWritten
  }

  /** The required headings as meant. */
  function RequiredSections(skillName: string): seq<string> {
    ["# " + skillName] + SectionHeadings
  }

  /** The output heading as written, and as meant. */
  const OutputHeadingAsWritten: string := "## \U{F8FF}\U{FC}\U{E9}\U{C5} Output"
  const OutputHeading: string := "## \U{1F381} Output"

  /** The part of a heading before its first colon, stripped: the fallback search key. */
  function SectionName(pattern: string): string {
    Strip(Split(pattern, ':')[0])
  }

  /** `re.search('^' + re.escape(p), s, re.MULTILINE)`: `p` at the start of `s` or right after a newline. */
  predicate AtLineStart(s: string, p: string) {
    StartsWith(s, p) || exists i :: 0 <= i < |s| && s[i] == '\n' && StartsWith(s[i + 1..], p)
  }

  /** A heading is found verbatim anywhere, or its name begins a line. */
  predicate SectionPresent(content: string, pattern: string) {
    Contains(content, pattern) || AtLineStart(content, SectionName(pattern))
  }

  function MissingSectionMessage(pattern: string): string {
    MissingSectionPrefix + SectionName(pattern)
  }

  /** One message per absent heading, in heading order. */
  function MissingSectionErrors(content: string, patterns: seq<string>): (r: seq<string>)
    ensures |r| <= |patterns|
  {
    if |patterns| == 0 then []
    else
      var p := patterns[|patterns| - 1];
      MissingSectionErrors(content, patterns[..|patterns| - 1])
      + (if SectionPresent(content, p) then [] else [MissingSectionMessage(p)])
  }

  /** `^# name$` under `re.MULTILINE`: some line is exactly the title heading. */
  function HeaderErrors(content: string, skillName: string): seq<string> {
    if "# " + skillName in Split(content, '\n') then []
    else [MissingHeaderPrefix + skillName + "'"]
  }

  /** The positions of the headings found verbatim, in heading order. */
  function Positions(content: string, patterns: seq<string>): seq<nat> {
    if |patterns| == 0 then []
    else
      var p := patterns[|patterns| - 1];
      Positions(content, patterns[..|patterns| - 1])
      + (match FindFrom(content, p, 0) case Some(k) => [k] case None => [])
  }

  /** The section-order check compares the sorted positions with a copy of themselves. */
  function OrderWarnings(sortedPositions: seq<nat>): (r: seq<string>)
    ensures r == []
  {
    if sortedPositions != sortedPositions[..] then [OrderWarning] else []
  }

  function StructureErrors(content: string, skillName: string, patterns: seq<string>): seq<string> {
    HeaderErrors(content, skillName) + MissingSectionErrors(content, patterns)
  }

  /** An absent heading's message is among the errors. */
  lemma {:induction false} MissingSectionReported(content: string, patterns: seq<string>, i: nat)
    requires i < |patterns| && !SectionPresent(content, patterns[i])
    ensures MissingSectionMessage(patterns[i]) in MissingSectionErrors(content, patterns)
    decreases |patterns|
  {
    if i < |patterns| - 1 {
      var init := patterns[..|patterns| - 1];
      assert init[i] == patterns[i];
      MissingSectionReported(content, init, i);
    }
  }

  /** No missing-section message exactly when every heading is present. */
  lemma {:induction false} MissingSectionErrorsEmpty(content: string, patterns: seq<string>)
    ensures MissingSectionErrors(content, patterns) == [] <==>
      forall i :: 0 <= i < |patterns| ==> SectionPresent(content, patterns[i])
    decreases |patterns|
  {
    if |patterns| > 0 {
      var init := patterns[..|patterns| - 1];
      MissingSectionErrorsEmpty(content, init);
      assert forall i :: 0 <= i < |init| ==> init[i] == patterns[i];
    }
  }

  /** A heading with no colon and no surrounding blanks is its own fallback name. */
  lemma SectionNamePlain(pattern: string)
    requires ':' !in pattern && |pattern| > 0
    requires !IsSpace(pattern[0]) && !IsSpace(pattern[|pattern| - 1])
    ensures SectionName(pattern) == pattern
  {
    var parts := Split(pattern, ':');
    CountCharAbsent(pattern, ':');
    SplitLength(pattern, ':');
    assert |parts| == 1;
    assert Join(parts, [':']) == parts[0];
  }

  /** A string found at a line start has all its characters in the text. */
  lemma AtLineStartHasChar(s: string, p: string, c: char)
    requires AtLineStart(s, p) && c in p
    ensures c in s
  {
    if StartsWith(s, p) {
      assert c in s[..|p|];
    } else {
      var i :| 0 <= i < |s| && s[i] == '\n' && StartsWith(s[i + 1..], p);
      assert c in s[i + 1..][..|p|];
    }
  }

  /** A heading that holds a character absent from the text is not present. */
  lemma AbsentByChar(content: string, pattern: string, c: char)
    requires ':' !in pattern && |pattern| > 0
    requires !IsSpace(pattern[0]) && !IsSpace(pattern[|pattern| - 1])
    requires c in pattern && c !in content
    ensures !SectionPresent(content, pattern)
  {
    SectionNamePlain(pattern);
    if Contains(content, pattern) {
      ContainsHasChar(content, pattern, c);
    }
    if AtLineStart(content, pattern) {
      AtLineStartHasChar(content, pattern, c);
    }
  }

  /**
   * With the headings as written, a skill file that uses the emoji (and so never
   * the character U+F8FF) is reported as missing all six emoji sections from
   * Purpose to Output.
   */
  lemma AsWrittenRejectsEmojiHeadings(content: string, skillName: string)
    requires '\U{F8FF}' !in content
    ensures forall i :: 1 <= i <= 6 ==>
      MissingSectionMessage(RequiredSectionsAsWritten(skillName)[i]) in StructureErrors(content, skillName, RequiredSectionsAsWritten(skillName))
    ensures StructureErrors(content, skillName, RequiredSectionsAsWritten(skillName)) != []
  {
    var ps := RequiredSectionsAsWritten(skillName);
    forall i | 1 <= i <= 6
      ensures MissingSectionMessage(ps[i]) in MissingSectionErrors(content, ps)
    {
      assert ps[i][3] == '\U{F8FF}';
      AbsentByChar(content, ps[i], '\U{F8FF}');
      MissingSectionReported(content, ps, i);
    }
    assert MissingSectionMessage(ps[1]) in MissingSectionErrors(content, ps);
  }

  /**
   * With the intended headings, a file whose lines include the title heading and
   * which contains each section heading has no structure error.
   */
  lemma EmojiHeadingsAccepted(content: string, skillName: string)
    requires "# " + skillName in Split(content, '\n')
    requires forall i :: 1 <= i < 8 ==> Contains(content, RequiredSections(skillName)[i])
    ensures StructureErrors(content, skillName, RequiredSections(skillName)) == []
  {
    var ps := RequiredSections(skillName);
    var line := "# " + skillName;
    var k :| 0 <= k < |Split(content, '\n')| && Split(content, '\n')[k] == line;
    TitleLineContained(content, k);
    assert Contains(content, ps[0]);
    MissingSectionErrorsEmpty(content, ps);
  }

  /** Every line is contained in the text. */
  lemma TitleLineContained(content: string, k: nat)
    requires k < |Split(content, '\n')|
    ensures Contains(content, Split(content, '\n')[k])
  {
    var parts := Split(content, '\n');
    JoinContainsPart(parts, k);
  }

  lemma {:induction false} JoinContainsPart(parts: seq<string>, k: nat)
    requires k < |parts|
    ensures Contains(Join(parts, "\n"), parts[k])
    decreases |parts|
  {
    if |parts| == 1 {
      ContainsInfix("", parts[0], "");
      assert "" + parts[0] + "" == parts[0];
    } else if k == 0 {
      ContainsInfix("", parts[0], "\n" + Join(parts[1..], "\n"));
      assert "" + parts[0] + ("\n" + Join(parts[1..], "\n")) == Join(parts, "\n");
    } else {
      JoinContainsPart(parts[1..], k - 1);
      ContainsPart(Join(parts, "\n"), parts[0] + "\n", Join(parts[1..], "\n"), "") by {
        assert parts[0] + "\n" + Join(parts[1..], "\n") + "" == Join(parts, "\n");
        ContainsInfix("", Join(parts, "\n"), "");
        assert "" + Join(parts, "\n") + "" == Join(parts, "\n");
      }
      ContainsTransitive(Join(parts, "\n"), Join(parts[1..], "\n"), parts[k]);
    }
  }

  /** Containment is transitive. */
  lemma {:induction false} ContainsTransitive(s: string, mid: string, sub: string)
    requires Contains(s, mid) && Contains(mid, sub)
    ensures Contains(s, sub)
    decreases |s|
  {
    if StartsWith(s, mid) {
      var rest := s[|mid|..];
      assert s == mid + rest;
      ContainsPrefixExtends(mid, rest, sub);
    } else {
      ContainsTransitive(s[1..], mid, sub);
    }
  }

  lemma {:induction false} ContainsPrefixExtends(mid: string, rest: string, sub: string)
    requires Contains(mid, sub)
    ensures Contains(mid + rest, sub)
    decreases |mid|
  {
    if StartsWith(mid, sub) {
      assert (mid + rest)[..|sub|] == mid[..|sub|];
    } else {
      assert (mid + rest)[1..] == mid[1..] + rest;
      ContainsPrefixExtends(mid[1..], rest, sub);
    }
  }

  /** One more heading adds its message, if any, at the end. */
  lemma MissingSectionErrorsSnoc(content: string, patterns: seq<string>, i: nat)
    requires i < |patterns|
    ensures MissingSectionErrors(content, patterns[..i + 1])
      == MissingSectionErrors(content, patterns[..i])
      + (if SectionPresent(content, patterns[i]) then [] else [MissingSectionMessage(patterns[i])])
  {
    assert patterns[..i + 1][..i] == patterns[..i];
  }

  /** `_validate_structure`: the title check, then one pass over the headings. */
  method ValidateStructure(content: string, skillName: string, patterns: seq<string>) returns (m: Messages)
    ensures m.errors == StructureErrors(content, skillName, patterns)
    ensures m.warnings == [] && m.recommendations == []
  {
    var header := HeaderErrors(content, skillName);
    var missing: seq<string> := [];
    for i := 0 to |patterns|
      invariant missing == MissingSectionErrors(content, patterns[..i])
    {
      MissingSectionErrorsSnoc(content, patterns, i);
      if !SectionPresent(content, patterns[i]) {
        missing := missing + [MissingSectionMessage(patterns[i])];
      }
    }
    assert patterns[..|patterns|] == patterns;
    var warnings := OrderWarnings(Positions(content, patterns));
    m := Messages(header + missing, warnings, []);
  }

  // ---------------------------------------------------------------- content

  function ShortSectionWarnings(sections: seq<Section>): (r: seq<string>)
    ensures |r| <= |sections|
  {
    if |sections| == 0 then []
    else
      var s := sections[|sections| - 1];
      ShortSectionWarnings(sections[..|sections| - 1])
      + (if |Strip(s.body)| < 10 then ["Section '" + s.title + ShortSectionSuffix] else [])
  }

  /**
   * `_validate_content`. The "too short" error sits in an `elif` below the
   * `< 1000` branch, so a length under 500 takes the warning branch and the
   * error is never added.
   */
  function ContentMessages(content: string, scans: Scans): (r: Messages)
    ensures r.errors == []
    ensures |content| < 1000 ==> ContentLengthPrefix + NatToString(|content|) + QuiteShortSuffix in r.warnings
    ensures |r.recommendations| <= 1
  {
    var n: nat := |content|;
    var lengthWarnings := if n < 1000 then [ContentLengthPrefix + NatToString(n) + QuiteShortSuffix] else [];
    var lengthErrors :=
      if n < 1000 then []
      else if n < 500 then [ContentLengthPrefix + NatToString(n) + TooShortSuffix]
      else [];
    Messages(
      lengthErrors,
      ShortSectionWarnings(scans.sections) + lengthWarnings,
      if scans.emojiCount < 5 then [MoreEmojisRecommendation] else [])
  }

  // ---------------------------------------------------------------- documentation

  /** `_validate_documentation_quality`: the only error is a missing parameter section. */
  function DocumentationMessages(content: string, scans: Scans, outputHeading: string): (r: Messages)
    ensures r.errors == [] <==> scans.parameterSection.Some?
    ensures r.recommendations == []
  {
    var blocks := if scans.codeBlocks < 2 then [MoreCodeWarning] else [];
    var commands :=
      if scans.commands < 3 then [MoreCommandsWarning] else [];
    var table :=
      match scans.parameterSection
      case Some(text) => if '|' !in text then [TableFormatWarning] else []
      case None => [];
    var output := if !Contains(content, outputHeading) then [OutputExamplesWarning] else [];
    Messages(
      if scans.parameterSection.None? then [MissingParametersError] else [],
      blocks + commands + table + output,
      [])
  }

  // ---------------------------------------------------------------- parameter table

  function ExpectedHeaders(): seq<string> {
    ["Parameter", "Type", "Required", "Description"]
  }

  /** The header row's cells, split at `|` and stripped. */
  function HeaderCells(header: string): seq<string> {
    var parts := Split(header, '|');
    seq(|parts|, i requires 0 <= i < |parts| => Strip(parts[i]))
  }

  /** Some cell contains the expected name, ignoring case. */
  predicate HasHeader(cells: seq<string>, expected: string) {
    exists i :: 0 <= i < |cells| && Contains(Lower(cells[i]), Lower(expected))
  }

  /** The expected names no cell contains, in their fixed order. */
  function MissingHeaders(cells: seq<string>, expected: seq<string>): (r: seq<string>)
    ensures forall x :: x in r <==> x in expected && !HasHeader(cells, x)
  {
    if |expected| == 0 then []
    else
      var e := expected[|expected| - 1];
      MissingHeaders(cells, expected[..|expected| - 1]) + (if HasHeader(cells, e) then [] else [e])
  }

  /** Python's `repr` of a list of plain strings. */
  function ListRepr(names: seq<string>): string {
    "[" + Join(seq(|names|, i requires 0 <= i < |names| => "'" + names[i] + "'"), ", ") + "]"
  }

  /** A header row naming every expected column: each expected name is in some cell. */
  predicate TableComplete(header: string, expected: seq<string>) {
    forall e :: e in expected ==> HasHeader(HeaderCells(header), e)
  }

  /** The warning for one table, naming the columns its header row lacks. */
  function TableWarning(header: string, expected: seq<string>): (r: seq<string>)
    ensures |r| <= 1
  {
    var missing := MissingHeaders(HeaderCells(header), expected);
    if missing != [] then [MissingHeadersWarning(missing)] else []
  }

  /** A table draws a warning exactly when its header row lacks an expected name. */
  lemma TableWarningExactly(header: string, expected: seq<string>)
    ensures |TableWarning(header, expected)| == 0 <==> TableComplete(header, expected)
  {
    var missing := MissingHeaders(HeaderCells(header), expected);
    if missing != [] {
      assert missing[0] in missing;
    }
  }

  /** One warning for each table whose header row lacks an expected name. */
  function TableWarnings(headers: seq<string>, expected: seq<string>): (r: seq<string>)
    ensures |r| <= |headers|
  {
    if |headers| == 0 then []
    else TableWarnings(headers[..|headers| - 1], expected) + TableWarning(headers[|headers| - 1], expected)
  }

  /** One more table adds its warning, if any, at the end. */
  lemma TableWarningsSnoc(headers: seq<string>, expected: seq<string>, t: nat)
    requires t < |headers|
    ensures TableWarnings(headers[..t + 1], expected) == TableWarnings(headers[..t], expected) + TableWarning(headers[t], expected)
  {
    assert headers[..t + 1][..t] == headers[..t];
  }

  /** No table warning exactly when no single table draws one. */
  lemma {:induction false} TableWarningsEmpty(headers: seq<string>, expected: seq<string>)
    ensures TableWarnings(headers, expected) == [] <==> forall t :: 0 <= t < |headers| ==> TableWarning(headers[t], expected) == []
    decreases |headers|
  {
    if |headers| > 0 {
      var init := headers[..|headers| - 1];
      TableWarningsEmpty(init, expected);
      var a := TableWarnings(init, expected);
      var b := TableWarning(headers[|headers| - 1], expected);
      assert TableWarnings(headers, expected) == a + b;
      assert a + b == [] <==> a == [] && b == [] by {
        assert |a + b| == |a| + |b|;
      }
      if a + b == [] {
        forall t | 0 <= t < |headers|
          ensures TableWarning(headers[t], expected) == []
        {
          if t < |init| {
            assert init[t] == headers[t];
            assert TableWarning(init[t], expected) == [];
          } else {
            assert t == |headers| - 1;
          }
        }
      } else if b == [] {
        var t :| 0 <= t < |init| && TableWarning(init[t], expected) != [];
        assert init[t] == headers[t];
      }
    }
  }

  /** `_validate_parameter_table`: nothing without a parameter section, one warning without a table. */
  method ValidateParameterTable(scans: Scans) returns (m: Messages)
    ensures m == ParameterTableMessages(scans)
  {
    if scans.parameterSection.None? {
      return Messages([], [], []);
    }
    var headers := scans.parameterTableHeaders;
    if headers == [] {
      return Messages([], [NoTableWarning], []);
    }
    var expected := ExpectedHeaders();
    var warnings: seq<string> := [];
    for t := 0 to |headers|
      invariant warnings == TableWarnings(headers[..t], expected)
    {
      TableWarningsSnoc(headers, expected, t);
      var missing := MissingHeaders(HeaderCells(headers[t]), expected);
      if missing != [] {
        warnings := warnings + [MissingHeadersWarning(missing)];
      }
    }
    assert headers[..|headers|] == headers;
    m := Messages([], warnings, []);
  }

  function MissingHeadersWarning(missing: seq<string>): string {
    MissingHeadersPrefix + ListRepr(missing)
  }

  function ParameterTableMessages(scans: Scans): Messages {
    match scans.parameterSection
    case None => Messages([], [], [])
    case Some(_) =>
      if scans.parameterTableHeaders == [] then Messages([], [NoTableWarning], [])
      else Messages([], TableWarnings(scans.parameterTableHeaders, ExpectedHeaders()), [])
  }

  /**
   * The parameter-table check never reports an error, and warns exactly when a
   * parameter section has no table or a table's header row lacks one of
   * Parameter, Type, Required and Description.
   */
  lemma ParameterTableWarnsExactly(scans: Scans)
    ensures ParameterTableMessages(scans).errors == [] && ParameterTableMessages(scans).recommendations == []
    ensures ParameterTableMessages(scans).warnings == [] <==>
      scans.parameterSection.None?
      || (scans.parameterTableHeaders != []
          && forall t :: 0 <= t < |scans.parameterTableHeaders| ==> TableComplete(scans.parameterTableHeaders[t], ExpectedHeaders()))
  {
    var headers := scans.parameterTableHeaders;
    TableWarningsEmpty(headers, ExpectedHeaders());
    forall t | 0 <= t < |headers|
      ensures TableWarning(headers[t], ExpectedHeaders()) == [] <==> TableComplete(headers[t], ExpectedHeaders())
    {
      TableWarningExactly(headers[t], ExpectedHeaders());
    }
  }

  // ---------------------------------------------------------------- examples

  /** `_validate_examples`: the only error is a missing examples section. */
  function ExampleMessages(scans: Scans): (r: Messages)
    ensures r.errors == [] <==> scans.examples.Some?
    ensures r.recommendations == []
    ensures |r.warnings| <= 3
  {
    match scans.examples
    case None => Messages([MissingExamplesError], [], [])
    case Some(e) =>
      Messages(
        [],
        (if e.basicHeadings == 0 then [BasicExamplesWarning] else [])
        + (if e.advancedHeadings == 0 then [AdvancedExamplesWarning] else [])
        + (if e.codeBlocks < 2 then [MultipleExamplesWarning] else []),
        [])
  }

  // ---------------------------------------------------------------- score and validity

  /** `_calculate_quality_score`. */
  function QualityScore(errors: nat, warnings: nat, recommendations: nat): (q: real)
    ensures 0.0 <= q <= 1.0
  {
    var base := 1.0 - errors as real * 0.2 - warnings as real * 0.05 - (if recommendations > 3 then 0.1 else 0.0);
    if base < 0.0 then 0.0 else if base > 1.0 then 1.0 else base
  }

  /**
   * A clean result scores 1; each error costs 0.2 and each warning 0.05 until
   * the floor of 0; more than three recommendations cost 0.1 once; five errors
   * reach the floor.
   */
  lemma QualityScoreRules(errors: nat, warnings: nat, recommendations: nat)
    ensures errors == 0 && warnings == 0 && recommendations <= 3 ==> QualityScore(errors, warnings, recommendations) == 1.0
    ensures errors >= 5 ==> QualityScore(errors, warnings, recommendations) == 0.0
    ensures QualityScore(errors, warnings, recommendations) > 0.0 ==>
      QualityScore(errors, warnings, recommendations)
      == 1.0 - errors as real * 0.2 - warnings as real * 0.05 - (if recommendations > 3 then 0.1 else 0.0)
  {
  }

  /** More errors, warnings or recommendations never raise the score. */
  lemma QualityScoreMonotone(e1: nat, w1: nat, r1: nat, e2: nat, w2: nat, r2: nat)
    requires e1 <= e2 && w1 <= w2 && r1 <= r2
    ensures QualityScore(e2, w2, r2) <= QualityScore(e1, w1, r1)
  {
  }

  /** All messages of a successful read, each list in check order. */
  function CombinedMessages(content: string, stem: string, scans: Scans, patterns: seq<string>, outputHeading: string): Messages {
    var c := ContentMessages(content, scans);
    var d := DocumentationMessages(content, scans, outputHeading);
    var p := ParameterTableMessages(scans);
    var x := ExampleMessages(scans);
    Messages(
      StructureErrors(content, stem, patterns) + c.errors + d.errors + p.errors + x.errors,
      OrderWarnings(Positions(content, patterns)) + c.warnings + d.warnings + p.warnings + x.warnings,
      c.recommendations + d.recommendations + p.recommendations + x.recommendations)
  }

  /** The whole result of a successful read. */
  function ContentResult(file: string, stem: string, parent: string, content: string, scans: Scans, patterns: seq<string>, outputHeading: string): ValidationResult {
    var m := CombinedMessages(content, stem, scans, patterns, outputHeading);
    ValidationResult(file, stem, parent, |m.errors| == 0, m.errors, m.warnings, m.recommendations,
      QualityScore(|m.errors|, |m.warnings|, |m.recommendations|))
  }

  /** Only the structure, parameter-section and examples-section checks report errors. */
  lemma CombinedErrors(content: string, stem: string, scans: Scans, patterns: seq<string>, outputHeading: string)
    ensures CombinedMessages(content, stem, scans, patterns, outputHeading).errors == [] <==>
      StructureErrors(content, stem, patterns) == [] && scans.parameterSection.Some? && scans.examples.Some?
  {
    var c := ContentMessages(content, scans);
    var d := DocumentationMessages(content, scans, outputHeading);
    var p := ParameterTableMessages(scans);
    var x := ExampleMessages(scans);
    assert c.errors == [] && p.errors == [];
  }

  /** `validate_skill_file`'s result for the given headings, read failures included. */
  function SkillResultWith(file: string, stem: string, parent: string, read: ReadOutcome, scans: Scans,
                           patterns: seq<string>, outputHeading: string): ValidationResult {
    match read
    case ReadFailed(reason) =>
      ValidationResult(file, if stem != "" then stem else "unknown", "unknown", false,
        [ReadErrorPrefix + reason], [], [], 0.0)
    case Read(content) =>
      ContentResult(file, stem, parent, content, scans, patterns, outputHeading)
  }

  /** `validate_skill_file`'s result, with the headings as the validator's source spells them. */
  function SkillResult(file: string, stem: string, parent: string, read: ReadOutcome, scans: Scans): ValidationResult {
    SkillResultWith(file, stem, parent, read, scans, RequiredSectionsAsWritten(stem), OutputHeadingAsWritten)
  }

  /** The result the validator was meant to give: the same checks with the intended emoji headings. */
  function IntendedSkillResult(file: string, stem: string, parent: string, read: ReadOutcome, scans: Scans): ValidationResult {
    SkillResultWith(file, stem, parent, read, scans, RequiredSections(stem), OutputHeading)
  }

  /**
   * A result is valid exactly when its error list is empty, its score lies in
   * [0, 1], and a read failure is invalid with one error and score 0.
   */
  lemma SkillResultFacts(file: string, stem: string, parent: string, read: ReadOutcome, scans: Scans)
    ensures SkillResult(file, stem, parent, read, scans).valid <==> SkillResult(file, stem, parent, read, scans).errors == []
    ensures 0.0 <= SkillResult(file, stem, parent, read, scans).qualityScore <= 1.0
    ensures read.ReadFailed? ==>
      var r := SkillResult(file, stem, parent, read, scans);
      !r.valid && |r.errors| == 1 && r.qualityScore == 0.0 && r.category == "unknown"
  {
  }

  /** Validity for any headings list: the title line, every heading, and both scanned sections. */
  lemma ValidWithExactly(file: string, stem: string, parent: string, content: string, scans: Scans,
                         patterns: seq<string>, outputHeading: string)
    ensures SkillResultWith(file, stem, parent, Read(content), scans, patterns, outputHeading).valid <==>
      && "# " + stem in Split(content, '\n')
      && (forall i :: 0 <= i < |patterns| ==> SectionPresent(content, patterns[i]))
      && scans.parameterSection.Some?
      && scans.examples.Some?
  {
    MissingSectionErrorsEmpty(content, patterns);
    CombinedErrors(content, stem, scans, patterns, outputHeading);
    assert StructureErrors(content, stem, patterns) == [] <==>
      HeaderErrors(content, stem) == [] && MissingSectionErrors(content, patterns) == [];
  }

  /**
   * A readable skill is valid exactly when its title line and every required
   * heading as written are present and both the parameter and the examples
   * sections were found; content length, warnings and recommendations never
   * decide validity.
   */
  lemma ValidExactly(file: string, stem: string, parent: string, content: string, scans: Scans)
    ensures SkillResult(file, stem, parent, Read(content), scans).valid <==>
      && "# " + stem in Split(content, '\n')
      && (forall i :: 0 <= i < 8 ==> SectionPresent(content, RequiredSectionsAsWritten(stem)[i]))
      && scans.parameterSection.Some?
      && scans.examples.Some?
  {
    ValidWithExactly(file, stem, parent, content, scans, RequiredSectionsAsWritten(stem), OutputHeadingAsWritten);
  }

  /** The same characterisation for the intended headings. */
  lemma IntendedValidExactly(file: string, stem: string, parent: string, content: string, scans: Scans)
    ensures IntendedSkillResult(file, stem, parent, Read(content), scans).valid <==>
      && "# " + stem in Split(content, '\n')
      && (forall i :: 0 <= i < 8 ==> SectionPresent(content, RequiredSections(stem)[i]))
      && scans.parameterSection.Some?
      && scans.examples.Some?
  {
    ValidWithExactly(file, stem, parent, content, scans, RequiredSections(stem), OutputHeading);
  }

  /**
   * As written, a readable skill file that never contains U+F8FF (any file
   * using the real emoji headings) is invalid and is told to add an output
   * examples section.
   */
  lemma AsWrittenResultInvalid(file: string, stem: string, parent: string, content: string, scans: Scans)
    requires '\U{F8FF}' !in content
    ensures !SkillResult(file, stem, parent, Read(content), scans).valid
    ensures OutputExamplesWarning in SkillResult(file, stem, parent, Read(content), scans).warnings
  {
    var ps := RequiredSectionsAsWritten(stem);
    AsWrittenRejectsEmojiHeadings(content, stem);
    CombinedErrors(content, stem, scans, ps, OutputHeadingAsWritten);
    OutputWarningAsWritten(content, scans);
    DocumentationWarningCombined(content, stem, scans, ps, OutputHeadingAsWritten, OutputExamplesWarning);
  }

  /** The as-written output heading is never found in a text without U+F8FF. */
  lemma OutputWarningAsWritten(content: string, scans: Scans)
    requires '\U{F8FF}' !in content
    ensures OutputExamplesWarning in DocumentationMessages(content, scans, OutputHeadingAsWritten).warnings
  {
    if Contains(content, OutputHeadingAsWritten) {
      assert OutputHeadingAsWritten[3] == '\U{F8FF}';
      ContainsHasChar(content, OutputHeadingAsWritten, '\U{F8FF}');
    }
  }

  /** A documentation warning is among the combined warnings. */
  lemma DocumentationWarningCombined(content: string, stem: string, scans: Scans, patterns: seq<string>,
                                     outputHeading: string, w: string)
    requires w in DocumentationMessages(content, scans, outputHeading).warnings
    ensures w in CombinedMessages(content, stem, scans, patterns, outputHeading).warnings
  {
    var c := ContentMessages(content, scans);
    var d := DocumentationMessages(content, scans, outputHeading);
    var p := ParameterTableMessages(scans);
    var x := ExampleMessages(scans);
    var pre := OrderWarnings(Positions(content, patterns)) + c.warnings;
    assert CombinedMessages(content, stem, scans, patterns, outputHeading).warnings == pre + d.warnings + p.warnings + x.warnings;
    assert w in pre + d.warnings;
  }

  // ---------------------------------------------------------------- suite

  /** A skill file found under the skills directory: its path, stem, parent directory name and scans. */
  datatype SkillFile = SkillFile(path: string, stem: string, parent: string, read: ReadOutcome, scans: Scans)

  /** The results keyed by stem; a later file with the same stem replaces an earlier one. */
  function ResultsOf(files: seq<SkillFile>): map<string, ValidationResult> {
    if |files| == 0 then map[]
    else
      var f := files[|files| - 1];
      ResultsOf(files[..|files| - 1])[f.stem := SkillResult(f.path, f.stem, f.parent, f.read, f.scans)]
  }

  /** Every stem is a key, every key is a stem, and each stored result is valid iff it has no error. */
  lemma {:induction false} ResultsOfFacts(files: seq<SkillFile>)
    ensures forall k :: k in ResultsOf(files) <==> exists i :: 0 <= i < |files| && files[i].stem == k
    ensures forall k :: k in ResultsOf(files) ==>
      (ResultsOf(files)[k].valid <==> ResultsOf(files)[k].errors == [])
      && 0.0 <= ResultsOf(files)[k].qualityScore <= 1.0
    decreases |files|
  {
    if |files| > 0 {
      var init := files[..|files| - 1];
      var f := files[|files| - 1];
      ResultsOfFacts(init);
      SkillResultFacts(f.path, f.stem, f.parent, f.read, f.scans);
      forall k | k in ResultsOf(files)
        ensures exists i :: 0 <= i < |files| && files[i].stem == k
      {
        if k != f.stem {
          assert k in ResultsOf(init);
          var i :| 0 <= i < |init| && init[i].stem == k;
          assert files[i] == init[i];
        }
      }
      forall k | exists i :: 0 <= i < |files| && files[i].stem == k
        ensures k in ResultsOf(files)
      {
        var i :| 0 <= i < |files| && files[i].stem == k;
        if i < |init| {
          assert init[i] == files[i];
        }
      }
    }
  }

  /** Report totals, or the fixed message when there is nothing to report. */
  datatype Report =
    | NoResults(message: string)
    | Totals(total: nat, valid: nat, invalid: int, averageQuality: real, order: seq<string>)

  function CountValid(names: seq<string>, results: map<string, ValidationResult>): (n: nat)
    requires forall i :: 0 <= i < |names| ==> names[i] in results
    ensures n <= |names|
  {
    if |names| == 0 then 0
    else CountValid(names[..|names| - 1], results) + (if results[names[|names| - 1]].valid then 1 else 0)
  }

  function SumScores(names: seq<string>, results: map<string, ValidationResult>): real
    requires forall i :: 0 <= i < |names| ==> names[i] in results
  {
    if |names| == 0 then 0.0
    else SumScores(names[..|names| - 1], results) + results[names[|names| - 1]].qualityScore
  }

  lemma {:induction false} SumScoresBounds(names: seq<string>, results: map<string, ValidationResult>)
    requires forall i :: 0 <= i < |names| ==> names[i] in results
    requires forall k :: k in results ==> 0.0 <= results[k].qualityScore <= 1.0
    ensures 0.0 <= SumScores(names, results) <= |names| as real
    decreases |names|
  {
    if |names| > 0 {
      SumScoresBounds(names[..|names| - 1], results);
    }
  }

  /** `generate_report`'s totals, with the skills in name order. */
  function ReportOf(results: map<string, ValidationResult>): Report {
    if |results| == 0 then NoResults(NoResultsMessage)
    else
      var names := SortedOf(results.Keys);
      var valid := CountValid(names, results);
      Totals(|results|, valid, |results| - valid, SumScores(names, results) / |results| as real, names)
  }

  /**
   * With no results the report is the fixed message; otherwise valid plus
   * invalid is the total, every skill is listed once in name order, and the
   * average quality lies in [0, 1] when every score does.
   */
  lemma ReportFacts(results: map<string, ValidationResult>)
    ensures ReportOf(results).NoResults? <==> |results| == 0
    ensures ReportOf(results).Totals? ==>
      var r := ReportOf(results);
      && r.total == |results|
      && r.valid + r.invalid == r.total
      && 0 <= r.invalid
      && |r.order| == |results|
      && (forall k :: k in r.order <==> k in results)
      && (forall i, j :: 0 <= i < j < |r.order| ==> StrLess(r.order[i], r.order[j]))
  {
    if |results| > 0 {
      assert |results.Keys| == |results|;
    }
  }

  /** The average quality lies in [0, 1] when every score does. */
  lemma ReportAverageBounded(results: map<string, ValidationResult>)
    requires |results| > 0
    requires forall k :: k in results ==> 0.0 <= results[k].qualityScore <= 1.0
    ensures 0.0 <= ReportOf(results).averageQuality <= 1.0
  {
    var names := SortedOf(results.Keys);
    assert |results.Keys| == |results|;
    SumScoresBounds(names, results);
    var n := |results| as real;
    var s := SumScores(names, results);
    assert ReportOf(results).averageQuality == s / n;
    DivideAtMost(s, n);
  }

  lemma DivideAtMost(s: real, n: real)
    requires 0.0 <= s <= n && n > 0.0
    ensures 0.0 <= s / n <= 1.0
  {
    assert s / n * n == s;
  }

  /** `SkillValidator` and the result map it keeps. */
  class SkillValidator {
    var validationResults: map<string, ValidationResult>

    constructor()
      ensures validationResults == map[]
    {
      validationResults := map[];
    }

    /** `validate_skill_file`: the checks in order, each appending to the shared lists. */
    method ValidateSkillFile(file: string, stem: string, parent: string, read: ReadOutcome, scans: Scans)
      returns (r: ValidationResult)
      ensures r == SkillResult(file, stem, parent, read, scans)
    {
      if read.ReadFailed? {
        return ValidationResult(file, if stem != "" then stem else "unknown", "unknown", false,
          [ReadErrorPrefix + read.reason], [], [], 0.0);
      }
      var content := read.content;
      var patterns := RequiredSectionsAsWritten(stem);
      var s := ValidateStructure(content, stem, patterns);
      var c := ContentMessages(content, scans);
      var errors := s.errors + c.errors;
      var warnings := s.warnings + c.warnings;
      var recommendations := c.recommendations;
      var d := DocumentationMessages(content, scans, OutputHeadingAsWritten);
      errors, warnings, recommendations := errors + d.errors, warnings + d.warnings, recommendations + d.recommendations;
      var p := ValidateParameterTable(scans);
      errors, warnings, recommendations := errors + p.errors, warnings + p.warnings, recommendations + p.recommendations;
      var x := ExampleMessages(scans);
      errors, warnings, recommendations := errors + x.errors, warnings + x.warnings, recommendations + x.recommendations;
      assert Messages(errors, warnings, recommendations) == CombinedMessages(content, stem, scans, patterns, OutputHeadingAsWritten);
      var score := QualityScore(|errors|, |warnings|, |recommendations|);
      r := ValidationResult(file, stem, parent, |errors| == 0, errors, warnings, recommendations, score);
    }

    /**
     * `validate_all_skills`: with no skills directory nothing is recorded;
     * otherwise the results of every file replace the stored map.
     */
    method ValidateAllSkills(dirExists: bool, files: seq<SkillFile>) returns (results: map<string, ValidationResult>)
      modifies this
      ensures !dirExists ==> results == map[] && validationResults == old(validationResults)
      ensures dirExists ==> results == ResultsOf(files) && validationResults == results
    {
      if !dirExists {
        return map[];
      }
      results := map[];
      var i := 0;
      while i < |files|
        invariant 0 <= i <= |files|
        invariant results == ResultsOf(files[..i])
      {
        assert files[..i + 1][..i] == files[..i];
        var f := files[i];
        var r := ValidateSkillFile(f.path, f.stem, f.parent, f.read, f.scans);
        results := results[f.stem := r];
        i := i + 1;
      }
      assert files[..|files|] == files;
      validationResults := results;
    }

    /** `generate_report` over the stored results. */
    function Report(): Report
      reads this
    {
      ReportOf(validationResults)
    }
  }
}
