/**
 `get_job_specifications_for_cover_letter`: scrape a posting, dispatch on the
 errors the result can carry, and render the structured record as the text
 block that goes into the cover-letter prompt.
 */
module CoverLetterSpecs {
  import opened Wrappers
  import opened PyStr
  import opened Scraper

  /** What the function gives back: its text, or the `AttributeError` raised by calling `.get` on something that is not a dict. */
  datatype Outcome = Text(text: string) | AttributeError

  /** Python's `repr` of a list of strings, which an f-string shows for a list in a scalar field. */
  type Repr = seq<string> -> string

  const ScrapingFailedPrefix := "Error scraping job posting: "
  const AnalysisFailedPrefix := "Error analyzing job specifications: "
  const NoSpecifications := "No specifications found"
  const Banner := "\n" + "JOB POSTING ANALYSIS:" + "\n"

  /** The keys the report reads. */
  const ReportKeys: set<string> := {
    "job_title", "company", "location", "experience_level", "employment_type",
    "requirements", "responsibilities", "skills", "key_qualifications", "benefits",
    "company_culture", "salary_range", "red_flags"
  }

  /** `f"{value}"` for a field value: a string is shown verbatim, even when empty, and a list through `repr`. */
  function Show(v: Value, repr: Repr): string {
    match v
    case Str(s) => s
    case StrList(items) => repr(items)
  }

  /** `for item in value`: a list yields its items, a string its characters, which concatenate back to it. */
  function Items(v: Value): (r: seq<string>)
    ensures v.StrList? ==> r == v.items
    ensures v.Str? ==> Concat(r) == v.s
    ensures v.Str? ==> |r| == |v.s| && forall k :: 0 <= k < |r| ==> r[k] == [v.s[k]]
  {
    match v
    case StrList(items) => items
    case Str(s) => Chars(s)
  }

  /** The one-character strings of `s`, in order. */
  function Chars(s: string): (r: seq<string>)
    ensures |r| == |s| && Concat(r) == s
    ensures forall k :: 0 <= k < |r| ==> r[k] == [s[k]]
  {
    if s == [] then []
    else
      var r := [[s[0]]] + Chars(s[1..]);
      assert r[1..] == Chars(s[1..]);
      r
  }

  /** `f"{specs.get(key, placeholder)}"`: the placeholder stands only for an absent key. */
  function Field(specs: map<string, Value>, key: string, placeholder: string, repr: Repr): string {
    if key in specs then Show(specs[key], repr) else placeholder
  }

  /** `specs.get(key, [placeholder])`, iterated: the placeholder stands only for an absent key, and a present empty list stays empty. */
  function ListField(specs: map<string, Value>, key: string, placeholder: string): (r: seq<string>)
    ensures key !in specs ==> r == [placeholder]
    ensures key in specs && specs[key].StrList? ==> r == specs[key].items
    ensures key in specs && specs[key].Str? ==> Concat(r) == specs[key].s
    ensures key in specs && specs[key].Str? ==>
      |r| == |specs[key].s| && forall k :: 0 <= k < |r| ==> r[k] == [specs[key].s[k]]
  {
    if key in specs then Items(specs[key]) else [placeholder]
  }

  /** `f"- {item}" for item in items` */
  function Dashed(items: seq<string>): seq<string> {
    seq(|items|, k requires 0 <= k < |items| => "- " + items[k])
  }

  /** `chr(10).join(f"- {item}" for item in items)` */
  function Bullets(items: seq<string>): string {
    Join("\n", Dashed(items))
  }

  predicate HasConcerns(specs: map<string, Value>) {
    "red_flags" in specs && Truthy(specs["red_flags"])
  }

  /**
   The lines of the report's f-string, one entry per line of the template;
   the list sections stand as one entry each, their block of bullets.
   */
  function Template(url: string, specs: map<string, Value>, repr: Repr): seq<string> {
    Blocks(url, specs, repr) + [""]
  }

  /** The template's entries before its final line break. */
  function Blocks(url: string, specs: map<string, Value>, repr: Repr): seq<string> {
    Overview(url, specs, repr)
    + ["", "KEY REQUIREMENTS:", Bullets(ListField(specs, "requirements", "No specific requirements found"))]
    + ["", "RESPONSIBILITIES:", Bullets(ListField(specs, "responsibilities", "No specific responsibilities found"))]
    + ["", "REQUIRED SKILLS:", Bullets(ListField(specs, "skills", "No specific skills listed"))]
    + ["", "KEY QUALIFICATIONS:", Bullets(ListField(specs, "key_qualifications", "No key qualifications specified"))]
    + ["", "BENEFITS:", Bullets(ListField(specs, "benefits", "No benefits information found"))]
    + ["", "COMPANY CULTURE:", Field(specs, "company_culture", "No company culture information found", repr)]
    + ["", "SALARY RANGE:", Field(specs, "salary_range", "No salary information found", repr)]
  }

  /** The opening lines: banner, URL and the five scalar fields. */
  function Overview(url: string, specs: map<string, Value>, repr: Repr): seq<string> {
    [
      "",
      "JOB POSTING ANALYSIS:",
      "URL: " + url,
      "Job Title: " + Field(specs, "job_title", "Not specified", repr),
      "Company: " + Field(specs, "company", "Not specified", repr),
      "Location: " + Field(specs, "location", "Not specified", repr),
      "Experience Level: " + Field(specs, "experience_level", "Not specified", repr),
      "Employment Type: " + Field(specs, "employment_type", "Not specified", repr)
    ]
  }

  /** `f"\nPOTENTIAL CONCERNS:\n{...}"`, line by line. */
  function Concerns(specs: map<string, Value>): seq<string>
    requires HasConcerns(specs)
  {
    ["", "POTENTIAL CONCERNS:", Bullets(Items(specs["red_flags"]))]
  }

  /** The formatted specifications, with the concerns appended when `red_flags` is truthy. */
  function Report(url: string, specs: map<string, Value>, repr: Repr): (r: string)
    ensures Banner <= r
  {
    var text := Join("\n", Template(url, specs, repr));
    BannerOpensTemplate(url, specs, repr);
    if HasConcerns(specs) then text + Join("\n", Concerns(specs)) else text
  }

  lemma {:induction false} BannerOpensTemplate(url: string, specs: map<string, Value>, repr: Repr)
    ensures Banner <= Join("\n", Template(url, specs, repr))
  {
    var t := Template(url, specs, repr);
    JoinOpens("\n", t);
    assert t[0] == "" && t[1] == "JOB POSTING ANALYSIS:" by {
      assert t[..8] == Overview(url, specs, repr);
    }
    assert t[0] + "\n" == "\n";
  }

  /** A message that opens with some other character than a line break is not a report. */
  lemma {:induction false} NotReport(prefix: string, s: string)
    requires prefix != [] && prefix[0] != '\n'
    ensures !(Banner <= prefix + s)
  {
    assert (prefix + s)[0] == prefix[0];
  }

  // ------------------------------------------------------------ report lines

  /** A field that renders on one line: no line break in the string, in any list item or in the list's repr. */
  predicate SingleLine(v: Value, repr: Repr) {
    match v
    case Str(s) => NoLineBreak(s)
    case StrList(items) => NoLineBreak(repr(items)) && forall k :: 0 <= k < |items| ==> NoLineBreak(items[k])
  }

  /** The lines of a list section: one `- item` line per item, or a single blank line for an empty list. */
  function BulletLines(items: seq<string>): seq<string> {
    if items == [] then [""] else Dashed(items)
  }

  /** A blank line, a heading, then the section's lines. */
  function Section(heading: string, body: seq<string>): seq<string> {
    ["", heading] + body
  }

  /** The report, read line by line. */
  function ReportLines(url: string, specs: map<string, Value>, repr: Repr): seq<string> {
    SectionLines(url, specs, repr) + ConcernLines(specs)
  }

  /** The lines of the fixed part of the report. */
  function SectionLines(url: string, specs: map<string, Value>, repr: Repr): seq<string> {
    Overview(url, specs, repr)
    + Section("KEY REQUIREMENTS:", BulletLines(ListField(specs, "requirements", "No specific requirements found")))
    + Section("RESPONSIBILITIES:", BulletLines(ListField(specs, "responsibilities", "No specific responsibilities found")))
    + Section("REQUIRED SKILLS:", BulletLines(ListField(specs, "skills", "No specific skills listed")))
    + Section("KEY QUALIFICATIONS:", BulletLines(ListField(specs, "key_qualifications", "No key qualifications specified")))
    + Section("BENEFITS:", BulletLines(ListField(specs, "benefits", "No benefits information found")))
    + Section("COMPANY CULTURE:", [Field(specs, "company_culture", "No company culture information found", repr)])
    + Section("SALARY RANGE:", [Field(specs, "salary_range", "No salary information found", repr)])
  }

  /** The concerns section's lines, present only when `red_flags` is truthy. */
  function ConcernLines(specs: map<string, Value>): seq<string> {
    if HasConcerns(specs) then Section("POTENTIAL CONCERNS:", Dashed(Items(specs["red_flags"]))) else []
  }

  /** Every value the report reads holds no line boundary. */
  predicate ReportedSingleLine(specs: map<string, Value>, repr: Repr) {
    forall k :: k in ReportKeys && k in specs ==> SingleLine(specs[k], repr)
  }

  predicate AllSingleLine(lines: seq<string>) {
    forall k :: 0 <= k < |lines| ==> NoLineBreak(lines[k])
  }

  lemma {:induction false} NoLineBreakAppend(a: string, b: string)
    requires NoLineBreak(a) && NoLineBreak(b)
    ensures NoLineBreak(a + b)
  {
    assert forall i :: 0 <= i < |a + b| ==> (a + b)[i] == if i < |a| then a[i] else b[i - |a|];
  }

  lemma {:induction false} ItemsSingleLine(v: Value, repr: Repr)
    requires SingleLine(v, repr)
    ensures AllSingleLine(Items(v))
  {
    if v.Str? {
      forall k | 0 <= k < |v.s|
        ensures NoLineBreak(Items(v)[k])
      {
        assert Items(v)[k] == [v.s[k]];
      }
    }
  }

  lemma {:induction false} ListFieldSingleLine(specs: map<string, Value>, key: string, placeholder: string, repr: Repr)
    requires ReportedSingleLine(specs, repr) && key in ReportKeys
    requires NoLineBreak(placeholder)
    ensures AllSingleLine(ListField(specs, key, placeholder))
  {
    if key in specs {
      ItemsSingleLine(specs[key], repr);
    }
  }

  lemma {:induction false} FieldSingleLine(prefix: string, specs: map<string, Value>, key: string, placeholder: string, repr: Repr)
    requires ReportedSingleLine(specs, repr) && key in ReportKeys
    requires NoLineBreak(prefix) && NoLineBreak(placeholder)
    ensures NoLineBreak(prefix + Field(specs, key, placeholder, repr))
    ensures NoLineBreak(Field(specs, key, placeholder, repr))
  {
    NoLineBreakAppend(prefix, Field(specs, key, placeholder, repr));
  }

  /** A block of bullets ends open and splits into its bullet lines (one blank line when there are none). */
  lemma {:induction false} BulletsLines(items: seq<string>)
    requires AllSingleLine(items)
    ensures EndsOpen(Bullets(items))
    ensures LinesOf(Bullets(items)) == BulletLines(items)
  {
    var dashed := Dashed(items);
    forall k | 0 <= k < |dashed|
      ensures NoLineBreak(dashed[k]) && dashed[k] != []
    {
      NoLineBreakAppend("- ", items[k]);
    }
    if items != [] {
      var last := dashed[|dashed| - 1];
      JoinLast("\n", dashed);
      assert !IsLineBreak(last[|last| - 1]);
      SplitLinesOfJoin(dashed);
    }
  }

  /** A list section of the template contributes a blank line, its heading and its bullet lines. */
  lemma {:induction false} ListSectionLines(heading: string, items: seq<string>)
    requires NoLineBreak(heading) && AllSingleLine(items)
    ensures AllLines(["", heading, Bullets(items)]) == Section(heading, BulletLines(items))
    ensures EndsOpen(Bullets(items))
    ensures OpenBlocks(["", heading, Bullets(items)])
  {
    BulletsLines(items);
    assert heading != [] ==> !IsLineBreak(heading[|heading| - 1]);
    AllLinesAppend(["", heading], [Bullets(items)]);
    AllLinesOfLines(["", heading]);
    AllLinesSingle([Bullets(items)]);
  }

  /** The lines of eight consecutive groups of blocks, group by group. */
  lemma {:induction false} GroupsLines(o: seq<string>, g1: seq<string>, g2: seq<string>, g3: seq<string>, g4: seq<string>,
                    g5: seq<string>, g6: seq<string>, g7: seq<string>)
    ensures AllLines(o + g1 + g2 + g3 + g4 + g5 + g6 + g7)
         == AllLines(o) + AllLines(g1) + AllLines(g2) + AllLines(g3) + AllLines(g4) + AllLines(g5) + AllLines(g6) + AllLines(g7)
    ensures OpenBlocks(o) && OpenBlocks(g1) && OpenBlocks(g2) && OpenBlocks(g3) && OpenBlocks(g4)
         && OpenBlocks(g5) && OpenBlocks(g6) && OpenBlocks(g7)
         ==> OpenBlocks(o + g1 + g2 + g3 + g4 + g5 + g6 + g7)
  {
    AllLinesAppend(o + g1 + g2 + g3 + g4 + g5 + g6, g7);
    AllLinesAppend(o + g1 + g2 + g3 + g4 + g5, g6);
    AllLinesAppend(o + g1 + g2 + g3 + g4, g5);
    AllLinesAppend(o + g1 + g2 + g3, g4);
    AllLinesAppend(o + g1 + g2, g3);
    AllLinesAppend(o + g1, g2);
    AllLinesAppend(o, g1);
    if OpenBlocks(o) && OpenBlocks(g1) && OpenBlocks(g2) && OpenBlocks(g3) && OpenBlocks(g4)
       && OpenBlocks(g5) && OpenBlocks(g6) && OpenBlocks(g7) {
      OpenBlocksAppend(o, g1);
      OpenBlocksAppend(o + g1, g2);
      OpenBlocksAppend(o + g1 + g2, g3);
      OpenBlocksAppend(o + g1 + g2 + g3, g4);
      OpenBlocksAppend(o + g1 + g2 + g3 + g4, g5);
      OpenBlocksAppend(o + g1 + g2 + g3 + g4 + g5, g6);
      OpenBlocksAppend(o + g1 + g2 + g3 + g4 + g5 + g6, g7);
    }
  }

  /** A scalar section of the template is three lines: blank, heading, value. */
  lemma {:induction false} ScalarSectionLines(heading: string, value: string)
    requires NoLineBreak(heading) && NoLineBreak(value)
    ensures AllLines(["", heading, value]) == Section(heading, [value])
    ensures OpenBlocks(["", heading, value])
  {
    AllLinesOfLines(["", heading, value]);
    SingleLinesOpen(["", heading, value]);
  }

  // Each literal below is checked character by character, so the facts are
  // spread over small lemmas.

  /** The labels of the overview hold no line break. */
  lemma {:induction false} LabelsSingleLine()
    ensures NoLineBreak("URL: ") && NoLineBreak("Job Title: ") && NoLineBreak("Company: ")
    ensures NoLineBreak("Location: ") && NoLineBreak("Experience Level: ") && NoLineBreak("Employment Type: ")
    ensures NoLineBreak("Not specified")
  {
    LeadLabels();
    LevelLabels();
  }

  lemma {:induction false} LeadLabels()
    ensures NoLineBreak("URL: ") && NoLineBreak("Job Title: ") && NoLineBreak("Company: ") && NoLineBreak("Location: ")
  {
  }

  lemma {:induction false} LevelLabels()
    ensures NoLineBreak("Experience Level: ") && NoLineBreak("Employment Type: ") && NoLineBreak("Not specified")
  {
  }

  /** Every line of the overview is a single line. */
  lemma {:induction false} OverviewSingleLine(url: string, specs: map<string, Value>, repr: Repr)
    requires NoLineBreak(url)
    requires ReportedSingleLine(specs, repr)
    ensures AllSingleLine(Overview(url, specs, repr))
  {
    var o := Overview(url, specs, repr);
    LabelsSingleLine();
    NoLineBreakAppend("URL: ", url);
    FieldSingleLine("Job Title: ", specs, "job_title", "Not specified", repr);
    FieldSingleLine("Company: ", specs, "company", "Not specified", repr);
    FieldSingleLine("Location: ", specs, "location", "Not specified", repr);
    FieldSingleLine("Experience Level: ", specs, "experience_level", "Not specified", repr);
    FieldSingleLine("Employment Type: ", specs, "employment_type", "Not specified", repr);
    assert NoLineBreak(o[0]) && NoLineBreak(o[1]);
  }

  lemma {:induction false} OverviewLines(url: string, specs: map<string, Value>, repr: Repr)
    requires NoLineBreak(url)
    requires ReportedSingleLine(specs, repr)
    ensures AllLines(Overview(url, specs, repr)) == Overview(url, specs, repr)
    ensures OpenBlocks(Overview(url, specs, repr))
  {
    OverviewSingleLine(url, specs, repr);
    AllLinesOfLines(Overview(url, specs, repr));
    SingleLinesOpen(Overview(url, specs, repr));
  }

  /** The headings and placeholders of the fixed sections hold no line break. */
  lemma {:induction false} SectionLabelsSingleLine()
    ensures NoLineBreak("KEY REQUIREMENTS:") && NoLineBreak("No specific requirements found")
    ensures NoLineBreak("RESPONSIBILITIES:") && NoLineBreak("No specific responsibilities found")
    ensures NoLineBreak("REQUIRED SKILLS:") && NoLineBreak("No specific skills listed")
    ensures NoLineBreak("KEY QUALIFICATIONS:") && NoLineBreak("No key qualifications specified")
    ensures NoLineBreak("BENEFITS:") && NoLineBreak("No benefits information found")
    ensures NoLineBreak("COMPANY CULTURE:") && NoLineBreak("No company culture information found")
    ensures NoLineBreak("SALARY RANGE:") && NoLineBreak("No salary information found")
  {
    RequirementsLabels();
    ResponsibilitiesLabels();
    SkillsLabels();
    QualificationsLabels();
    BenefitsLabels();
    CultureLabels();
    SalaryLabels();
  }

  lemma {:induction false} RequirementsLabels()
    ensures NoLineBreak("KEY REQUIREMENTS:") && NoLineBreak("No specific requirements found")
  {
  }

  lemma {:induction false} ResponsibilitiesLabels()
    ensures NoLineBreak("RESPONSIBILITIES:") && NoLineBreak("No specific responsibilities found")
  {
  }

  lemma {:induction false} SkillsLabels()
    ensures NoLineBreak("REQUIRED SKILLS:") && NoLineBreak("No specific skills listed")
  {
  }

  lemma {:induction false} QualificationsLabels()
    ensures NoLineBreak("KEY QUALIFICATIONS:") && NoLineBreak("No key qualifications specified")
  {
  }

  lemma {:induction false} BenefitsLabels()
    ensures NoLineBreak("BENEFITS:") && NoLineBreak("No benefits information found")
  {
  }

  lemma {:induction false} CultureLabels()
    ensures NoLineBreak("COMPANY CULTURE:") && NoLineBreak("No company culture information found")
  {
  }

  lemma {:induction false} SalaryLabels()
    ensures NoLineBreak("SALARY RANGE:") && NoLineBreak("No salary information found")
  {
  }

  /** A list section of the template, read from the record, splits into its section lines. */
  lemma {:induction false} ListGroupLines(heading: string, specs: map<string, Value>, key: string, placeholder: string, repr: Repr)
    requires NoLineBreak(heading) && NoLineBreak(placeholder)
    requires ReportedSingleLine(specs, repr) && key in ReportKeys
    ensures AllLines(["", heading, Bullets(ListField(specs, key, placeholder))])
         == Section(heading, BulletLines(ListField(specs, key, placeholder)))
    ensures OpenBlocks(["", heading, Bullets(ListField(specs, key, placeholder))])
  {
    ListFieldSingleLine(specs, key, placeholder, repr);
    ListSectionLines(heading, ListField(specs, key, placeholder));
  }

  /** A scalar section of the template, read from the record, splits into its section lines. */
  lemma {:induction false} ScalarGroupLines(heading: string, specs: map<string, Value>, key: string, placeholder: string, repr: Repr)
    requires NoLineBreak(heading) && NoLineBreak(placeholder)
    requires ReportedSingleLine(specs, repr) && key in ReportKeys
    ensures AllLines(["", heading, Field(specs, key, placeholder, repr)])
         == Section(heading, [Field(specs, key, placeholder, repr)])
    ensures OpenBlocks(["", heading, Field(specs, key, placeholder, repr)])
  {
    FieldSingleLine("", specs, key, placeholder, repr);
    ScalarSectionLines(heading, Field(specs, key, placeholder, repr));
  }

  /** The template's blocks split into the lines of the fixed sections, and none ends in a line break. */
  lemma {:induction false} BlocksLines(url: string, specs: map<string, Value>, repr: Repr)
    requires NoLineBreak(url)
    requires ReportedSingleLine(specs, repr)
    ensures AllLines(Blocks(url, specs, repr)) == SectionLines(url, specs, repr)
    ensures OpenBlocks(Blocks(url, specs, repr))
  {
    SectionLabelsSingleLine();
    OverviewLines(url, specs, repr);
    ListGroupLines("KEY REQUIREMENTS:", specs, "requirements", "No specific requirements found", repr);
    ListGroupLines("RESPONSIBILITIES:", specs, "responsibilities", "No specific responsibilities found", repr);
    ListGroupLines("REQUIRED SKILLS:", specs, "skills", "No specific skills listed", repr);
    ListGroupLines("KEY QUALIFICATIONS:", specs, "key_qualifications", "No key qualifications specified", repr);
    ListGroupLines("BENEFITS:", specs, "benefits", "No benefits information found", repr);
    ScalarGroupLines("COMPANY CULTURE:", specs, "company_culture", "No company culture information found", repr);
    ScalarGroupLines("SALARY RANGE:", specs, "salary_range", "No salary information found", repr);
    GroupsLines(Overview(url, specs, repr),
      ["", "KEY REQUIREMENTS:", Bullets(ListField(specs, "requirements", "No specific requirements found"))],
      ["", "RESPONSIBILITIES:", Bullets(ListField(specs, "responsibilities", "No specific responsibilities found"))],
      ["", "REQUIRED SKILLS:", Bullets(ListField(specs, "skills", "No specific skills listed"))],
      ["", "KEY QUALIFICATIONS:", Bullets(ListField(specs, "key_qualifications", "No key qualifications specified"))],
      ["", "BENEFITS:", Bullets(ListField(specs, "benefits", "No benefits information found"))],
      ["", "COMPANY CULTURE:", Field(specs, "company_culture", "No company culture information found", repr)],
      ["", "SALARY RANGE:", Field(specs, "salary_range", "No salary information found", repr)]);
  }

  /** The concerns part splits into its heading and one `- item` line per red flag. */
  lemma {:induction false} ConcernsLines(specs: map<string, Value>, repr: Repr)
    requires HasConcerns(specs)
    requires ReportedSingleLine(specs, repr)
    ensures SplitLines(Join("\n", Concerns(specs))) == ConcernLines(specs)
  {
    var items := Items(specs["red_flags"]);
    ConcernsLabel();
    ItemsSingleLine(specs["red_flags"], repr);
    ListSectionLines("POTENTIAL CONCERNS:", items);
    assert items != [];
    BulletsNonEmpty(items);
    SplitLinesOfJoinedBlocks(Concerns(specs));
  }

  lemma {:induction false} ConcernsLabel()
    ensures NoLineBreak("POTENTIAL CONCERNS:")
  {
  }

  lemma {:induction false} BulletsNonEmpty(items: seq<string>)
    requires items != []
    ensures Bullets(items) != []
  {
    JoinLast("\n", Dashed(items));
  }

  /** With every value on one line, the report's lines are exactly `ReportLines`. */
  lemma {:induction false} ReportLinesExact(url: string, specs: map<string, Value>, repr: Repr)
    requires NoLineBreak(url)
    requires ReportedSingleLine(specs, repr)
    ensures SplitLines(Report(url, specs, repr)) == ReportLines(url, specs, repr)
  {
    var blocks := Blocks(url, specs, repr);
    var text := Join("\n", Template(url, specs, repr));
    BlocksLines(url, specs, repr);
    assert text == Join("\n", blocks) + "\n" by {
      JoinSnoc("\n", blocks, "");
      assert Join("\n", blocks) + "\n" + "" == Join("\n", blocks) + "\n";
    }
    var rest: string := if HasConcerns(specs) then Join("\n", Concerns(specs)) else "";
    assert Report(url, specs, repr) == Join("\n", blocks) + "\n" + rest;
    assert SplitLines(rest) == ConcernLines(specs) by {
      if HasConcerns(specs) { ConcernsLines(specs, repr); } else { assert SplitLines("") == []; }
    }
    SplitLinesOfBlocks(blocks, rest);
  }

  predicate OpenBlocks(blocks: seq<string>) {
    forall k :: 0 <= k < |blocks| ==> EndsOpen(blocks[k])
  }

  lemma {:induction false} OpenBlocksAppend(a: seq<string>, b: seq<string>)
    requires OpenBlocks(a) && OpenBlocks(b)
    ensures OpenBlocks(a + b)
  {
    forall k | 0 <= k < |a + b|
      ensures EndsOpen((a + b)[k])
    {
      if k < |a| { assert (a + b)[k] == a[k]; } else { assert (a + b)[k] == b[k - |a|]; }
    }
  }

  lemma {:induction false} SingleLinesOpen(lines: seq<string>)
    requires AllSingleLine(lines)
    ensures OpenBlocks(lines)
  {
    forall k | 0 <= k < |lines|
      ensures EndsOpen(lines[k])
    {
      if lines[k] != [] {
        assert !IsLineBreak(lines[k][|lines[k]| - 1]);
      }
    }
  }

  /** A record the report is rendered from: non-empty and without a truthy `error`. */
  predicate Reportable(specs: map<string, Value>) {
    specs != map[] && !("error" in specs && Truthy(specs["error"]))
  }

  /** Lines 168-211: dispatch on the scrape result, then format. */
  function Describe(result: ScrapeResult, repr: Repr): (o: Outcome)
    ensures o.AttributeError? <==>
      result.Scraped? && (result.jobSpecifications.None? || result.jobSpecifications.value.NotAnObject?)
    ensures result.Failed? && result.error != "" ==> o == Text(ScrapingFailedPrefix + result.error)
    ensures o.Text? ==>
      ScrapingFailedPrefix <= o.text || AnalysisFailedPrefix <= o.text || Banner <= o.text
    ensures (o.Text? && Banner <= o.text) <==>
      result.Scraped? && result.jobSpecifications.Some? && result.jobSpecifications.value.Object?
      && Reportable(result.jobSpecifications.value.fields)
    ensures o.Text? && Banner <= o.text ==>
      o.text == Report(result.url, result.jobSpecifications.value.fields, repr)
    ensures result.Scraped? && result.jobSpecifications.Some? && result.jobSpecifications.value.Object? ==>
      var fields := result.jobSpecifications.value.fields;
      && (fields == map[] ==> o == Text(AnalysisFailedPrefix + NoSpecifications))
      && ("error" in fields && Truthy(fields["error"]) ==> o == Text(AnalysisFailedPrefix + Show(fields["error"], repr)))
    ensures result == Failed("") ==> o == Text(AnalysisFailedPrefix + NoSpecifications)
  {
    NotReport(AnalysisFailedPrefix, NoSpecifications);
    if result.Failed? then
      NotReport(ScrapingFailedPrefix, result.error);
      if result.error != "" then Text(ScrapingFailedPrefix + result.error)
      // `result.get("job_specifications", {})` is then the empty dict.
      else Text(AnalysisFailedPrefix + NoSpecifications)
    else
      match result.jobSpecifications
      case None => AttributeError
      case Some(NotAnObject) => AttributeError
      case Some(Object(specs)) =>
        if !Reportable(specs) then
          NotReport(AnalysisFailedPrefix, if "error" in specs then Show(specs["error"], repr) else NoSpecifications);
          Text(AnalysisFailedPrefix + (if "error" in specs then Show(specs["error"], repr) else NoSpecifications))
        else Text(Report(result.url, specs, repr))
  }

  /** `url` names a page: it parses, with a scheme and a host. */
  predicate ValidUrl(url: string, urlparse: string -> Result<UrlParts, string>) {
    urlparse(url).Success? && urlparse(url).value.scheme != "" && urlparse(url).value.netloc != ""
  }

  /** `get_job_specifications_for_cover_letter(url, client)` */
  function GetJobSpecificationsForCoverLetter(
    url: string,
    urlparse: string -> Result<UrlParts, string>,
    fetch: string -> Fetched,
    client: Option<string -> Completion>,
    jsonLoads: string -> Option<Decoded>,
    repr: Repr
  ): (o: Outcome)
    ensures urlparse(url).Failure? ==> o == Text(ScrapingFailedPrefix + (ScrapeErrorPrefix + urlparse(url).error))
    ensures urlparse(url).Success? && !ValidUrl(url, urlparse) ==> o == Text(ScrapingFailedPrefix + InvalidUrl)
    ensures ValidUrl(url, urlparse) && fetch(url).RequestFailed? ==>
      o == Text(ScrapingFailedPrefix + (FetchErrorPrefix + fetch(url).reason))
    ensures ValidUrl(url, urlparse) && fetch(url).ScrapeFailed? ==>
      o == Text(ScrapingFailedPrefix + (ScrapeErrorPrefix + fetch(url).reason))
    // Without a client the record is `None`, and `None.get` raises.
    ensures ValidUrl(url, urlparse) && fetch(url).Page? && client.None? ==> o == AttributeError
    ensures o.AttributeError? ==> ValidUrl(url, urlparse) && fetch(url).Page?
    ensures ValidUrl(url, urlparse) && fetch(url).Page? && client.Some? ==>
      var specs := Synthesize(TextCleanup.CleanText(fetch(url).text), client.value, jsonLoads);
      && (specs.NotAnObject? <==> o.AttributeError?)
      && (specs.Object? && Reportable(specs.fields) ==> o == Text(Report(url, specs.fields, repr)))
    ensures o.Text? && Banner <= o.text ==> ValidUrl(url, urlparse) && fetch(url).Page? && client.Some?
  {
    Describe(ScrapeJobSpecifications(url, urlparse, fetch, client, jsonLoads), repr)
  }

  /** A failed completion is reported as an analysis error carrying the client's message. */
  lemma {:induction false} CompletionFailureReported(
    url: string, urlparse: string -> Result<UrlParts, string>, fetch: string -> Fetched,
    client: string -> Completion, jsonLoads: string -> Option<Decoded>, repr: Repr)
    requires ValidUrl(url, urlparse) && fetch(url).Page?
    requires client(Excerpt(TextCleanup.CleanText(fetch(url).text))).CompletionFailed?
    ensures GetJobSpecificationsForCoverLetter(url, urlparse, fetch, Some(client), jsonLoads, repr)
         == Text(AnalysisFailedPrefix + (SynthesisErrorPrefix + client(Excerpt(TextCleanup.CleanText(fetch(url).text))).reason))
  {
    var text := TextCleanup.CleanText(fetch(url).text);
    var message := SynthesisErrorPrefix + client(Excerpt(text)).reason;
    ScrapedPage(url, urlparse, fetch, client, jsonLoads);
    assert Synthesize(text, client, jsonLoads) == Object(map["error" := Str(message)]);
    AnalysisErrorDescribed(url, text, message, repr);
  }

  /** A valid URL whose page is fetched, with a client, is scraped into the synthesis of its cleaned text. */
  lemma {:induction false} ScrapedPage(
    url: string, urlparse: string -> Result<UrlParts, string>, fetch: string -> Fetched,
    client: string -> Completion, jsonLoads: string -> Option<Decoded>)
    requires ValidUrl(url, urlparse) && fetch(url).Page?
    ensures var text := TextCleanup.CleanText(fetch(url).text);
      ScrapeJobSpecifications(url, urlparse, fetch, Some(client), jsonLoads)
      == Scraped(url, text, Some(Synthesize(text, client, jsonLoads)), true)
  {
  }

  /** A record holding only a non-empty `error` is described as an analysis error. */
  lemma {:induction false} AnalysisErrorDescribed(url: string, text: string, message: string, repr: Repr)
    requires message != ""
    ensures Describe(Scraped(url, text, Some(Object(map["error" := Str(message)])), true), repr)
         == Text(AnalysisFailedPrefix + message)
  {
    assert Truthy(Str(message));
  }

  /** A reply that is not JSON is kept under `raw_analysis`, which the report never reads: every field shows its placeholder. */
  lemma {:induction false} UnparsableReplyReported(
    url: string, urlparse: string -> Result<UrlParts, string>, fetch: string -> Fetched,
    client: string -> Completion, jsonLoads: string -> Option<Decoded>, repr: Repr)
    requires ValidUrl(url, urlparse) && fetch(url).Page?
    requires client(Excerpt(TextCleanup.CleanText(fetch(url).text))).Reply?
    requires jsonLoads(client(Excerpt(TextCleanup.CleanText(fetch(url).text))).content).None?
    ensures GetJobSpecificationsForCoverLetter(url, urlparse, fetch, Some(client), jsonLoads, repr)
         == Text(Report(url, map[], repr))
  {
    var content := client(Excerpt(TextCleanup.CleanText(fetch(url).text))).content;
    var specs := Synthesize(TextCleanup.CleanText(fetch(url).text), client, jsonLoads);
    assert specs.fields == map["raw_analysis" := Str(content)];
    assert "raw_analysis" in specs.fields;
    RawAnalysisIgnored(url, content, repr);
  }

  /** The two records hold the same value, or none, under `key`. */
  predicate AgreeOn(a: map<string, Value>, b: map<string, Value>, key: string) {
    (key in a <==> key in b) && (key in a ==> a[key] == b[key])
  }

  lemma {:induction false} FieldsAgree(a: map<string, Value>, b: map<string, Value>, key: string, placeholder: string, repr: Repr)
    requires AgreeOn(a, b, key)
    ensures Field(a, key, placeholder, repr) == Field(b, key, placeholder, repr)
    ensures ListField(a, key, placeholder) == ListField(b, key, placeholder)
  {
  }

  lemma {:induction false} AgreeOnReportKeys(a: map<string, Value>, b: map<string, Value>)
    requires forall k :: k in ReportKeys ==> AgreeOn(a, b, k)
    ensures AgreeOn(a, b, "job_title") && AgreeOn(a, b, "company") && AgreeOn(a, b, "location")
    ensures AgreeOn(a, b, "experience_level") && AgreeOn(a, b, "employment_type")
    ensures AgreeOn(a, b, "requirements") && AgreeOn(a, b, "responsibilities") && AgreeOn(a, b, "skills")
    ensures AgreeOn(a, b, "key_qualifications") && AgreeOn(a, b, "benefits")
    ensures AgreeOn(a, b, "company_culture") && AgreeOn(a, b, "salary_range") && AgreeOn(a, b, "red_flags")
  {
    assert "job_title" in ReportKeys && "company" in ReportKeys && "location" in ReportKeys;
    assert "experience_level" in ReportKeys && "employment_type" in ReportKeys;
    assert "requirements" in ReportKeys && "responsibilities" in ReportKeys && "skills" in ReportKeys;
    assert "key_qualifications" in ReportKeys && "benefits" in ReportKeys;
    assert "company_culture" in ReportKeys && "salary_range" in ReportKeys && "red_flags" in ReportKeys;
  }

  /** The report reads only `ReportKeys`: records that agree there render the same. */
  lemma {:induction false} ReportReadsOnlyKnownKeys(url: string, a: map<string, Value>, b: map<string, Value>, repr: Repr)
    requires forall k :: k in ReportKeys ==> AgreeOn(a, b, k)
    ensures Report(url, a, repr) == Report(url, b, repr)
  {
    AgreeOnReportKeys(a, b);
    FieldsAgree(a, b, "job_title", "Not specified", repr);
    FieldsAgree(a, b, "company", "Not specified", repr);
    FieldsAgree(a, b, "location", "Not specified", repr);
    FieldsAgree(a, b, "experience_level", "Not specified", repr);
    FieldsAgree(a, b, "employment_type", "Not specified", repr);
    FieldsAgree(a, b, "requirements", "No specific requirements found", repr);
    FieldsAgree(a, b, "responsibilities", "No specific responsibilities found", repr);
    FieldsAgree(a, b, "skills", "No specific skills listed", repr);
    FieldsAgree(a, b, "key_qualifications", "No key qualifications specified", repr);
    FieldsAgree(a, b, "benefits", "No benefits information found", repr);
    FieldsAgree(a, b, "company_culture", "No company culture information found", repr);
    FieldsAgree(a, b, "salary_range", "No salary information found", repr);
    assert Blocks(url, a, repr) == Blocks(url, b, repr);
    assert HasConcerns(a) == HasConcerns(b);
  }

  /** The record made from an unparsable reply renders as the empty record does. */
  lemma {:induction false} RawAnalysisIgnored(url: string, content: string, repr: Repr)
    ensures Report(url, map["raw_analysis" := Str(content)], repr) == Report(url, map[], repr)
  {
    ReportReadsOnlyKnownKeys(url, map["raw_analysis" := Str(content)], map[], repr);
  }

  /** The record with no keys renders every placeholder, one line each. */
  lemma {:induction false} PlaceholderReport(url: string, repr: Repr)
    requires NoLineBreak(url)
    ensures SplitLines(Report(url, map[], repr)) == PlaceholderLines(url)
  {
    ReportLinesExact(url, map[], repr);
    PlaceholderReportLines(url, repr);
  }

  /** The report's lines for the record with no keys. */
  function PlaceholderLines(url: string): seq<string> {
    [ "", "JOB POSTING ANALYSIS:", "URL: " + url,
      "Job Title: " + "Not specified", "Company: " + "Not specified", "Location: " + "Not specified",
      "Experience Level: " + "Not specified", "Employment Type: " + "Not specified" ]
    + ["", "KEY REQUIREMENTS:", "- " + "No specific requirements found"]
    + ["", "RESPONSIBILITIES:", "- " + "No specific responsibilities found"]
    + ["", "REQUIRED SKILLS:", "- " + "No specific skills listed"]
    + ["", "KEY QUALIFICATIONS:", "- " + "No key qualifications specified"]
    + ["", "BENEFITS:", "- " + "No benefits information found"]
    + ["", "COMPANY CULTURE:", "No company culture information found"]
    + ["", "SALARY RANGE:", "No salary information found"]
  }

  lemma {:induction false} PlaceholderReportLines(url: string, repr: Repr)
    ensures ReportLines(url, map[], repr) == PlaceholderLines(url)
  {
    var none: map<string, Value> := map[];
    assert !HasConcerns(none);
    assert Overview(url, none, repr) == PlaceholderLines(url)[..8];
    AbsentListSection("KEY REQUIREMENTS:", "requirements", "No specific requirements found");
    AbsentListSection("RESPONSIBILITIES:", "responsibilities", "No specific responsibilities found");
    AbsentListSection("REQUIRED SKILLS:", "skills", "No specific skills listed");
    AbsentListSection("KEY QUALIFICATIONS:", "key_qualifications", "No key qualifications specified");
    AbsentListSection("BENEFITS:", "benefits", "No benefits information found");
    assert Section("COMPANY CULTURE:", [Field(none, "company_culture", "No company culture information found", repr)])
        == ["", "COMPANY CULTURE:", "No company culture information found"];
    assert Section("SALARY RANGE:", [Field(none, "salary_range", "No salary information found", repr)])
        == ["", "SALARY RANGE:", "No salary information found"];
  }

  /** An absent list key renders as its heading and the one placeholder bullet. */
  lemma {:induction false} AbsentListSection(heading: string, key: string, placeholder: string)
    ensures Section(heading, BulletLines(ListField(map[], key, placeholder))) == ["", heading, "- " + placeholder]
  {
    assert Dashed([placeholder]) == ["- " + placeholder];
  }

  lemma {:induction false} PrefixOfAppend<T>(a: seq<T>, b: seq<T>, c: seq<T>)
    requires a <= b
    ensures a <= b + c
  {
    assert (b + c)[..|a|] == b[..|a|];
  }

  lemma {:induction false} SuffixOfAppend<T>(a: seq<T>, b: seq<T>, n: nat)
    requires n <= |b|
    ensures (a + b)[|a + b| - n..] == b[|b| - n..]
  {
  }

  /**
   A present but empty list renders its section with a blank line and no
   placeholder; an absent key renders the single placeholder bullet.
   */
  lemma {:induction false} RequirementsSectionLines(url: string, specs: map<string, Value>, repr: Repr)
    ensures "requirements" !in specs ==>
      ReportLines(url, specs, repr)[8..11] == ["", "KEY REQUIREMENTS:", "- " + "No specific requirements found"]
    ensures "requirements" in specs && specs["requirements"] == StrList([]) ==>
      ReportLines(url, specs, repr)[8..11] == ["", "KEY REQUIREMENTS:", ""]
    ensures "requirements" in specs && specs["requirements"].StrList? ==>
      var items := specs["requirements"].items;
      items != [] ==> ReportLines(url, specs, repr)[8..10 + |items|] == ["", "KEY REQUIREMENTS:"] + Dashed(items)
  {
    var items := ListField(specs, "requirements", "No specific requirements found");
    var head := Overview(url, specs, repr) + Section("KEY REQUIREMENTS:", BulletLines(items));
    ReportOpening(url, specs, repr);
    var lines := ReportLines(url, specs, repr);
    assert |Overview(url, specs, repr)| == 8;
    assert lines[8..|head|] == head[8..];
    if "requirements" !in specs {
      assert Dashed(items) == ["- " + "No specific requirements found"];
    }
  }

  /** The report's lines open with the overview and the requirements section. */
  lemma {:induction false} ReportOpening(url: string, specs: map<string, Value>, repr: Repr)
    ensures Overview(url, specs, repr)
      + Section("KEY REQUIREMENTS:", BulletLines(ListField(specs, "requirements", "No specific requirements found")))
      <= ReportLines(url, specs, repr)
  {
    var head := Overview(url, specs, repr)
      + Section("KEY REQUIREMENTS:", BulletLines(ListField(specs, "requirements", "No specific requirements found")));
    var p2 := head + Section("RESPONSIBILITIES:", BulletLines(ListField(specs, "responsibilities", "No specific responsibilities found")));
    var p3 := p2 + Section("REQUIRED SKILLS:", BulletLines(ListField(specs, "skills", "No specific skills listed")));
    var p4 := p3 + Section("KEY QUALIFICATIONS:", BulletLines(ListField(specs, "key_qualifications", "No key qualifications specified")));
    var p5 := p4 + Section("BENEFITS:", BulletLines(ListField(specs, "benefits", "No benefits information found")));
    var p6 := p5 + Section("COMPANY CULTURE:", [Field(specs, "company_culture", "No company culture information found", repr)]);
    var p7 := p6 + Section("SALARY RANGE:", [Field(specs, "salary_range", "No salary information found", repr)]);
    assert p7 == SectionLines(url, specs, repr);
    PrefixOfAppend(head, head, []);
    PrefixOfAppend(head, head, Section("RESPONSIBILITIES:", BulletLines(ListField(specs, "responsibilities", "No specific responsibilities found"))));
    PrefixOfAppend(head, p2, Section("REQUIRED SKILLS:", BulletLines(ListField(specs, "skills", "No specific skills listed"))));
    PrefixOfAppend(head, p3, Section("KEY QUALIFICATIONS:", BulletLines(ListField(specs, "key_qualifications", "No key qualifications specified"))));
    PrefixOfAppend(head, p4, Section("BENEFITS:", BulletLines(ListField(specs, "benefits", "No benefits information found"))));
    PrefixOfAppend(head, p5, Section("COMPANY CULTURE:", [Field(specs, "company_culture", "No company culture information found", repr)]));
    PrefixOfAppend(head, p6, Section("SALARY RANGE:", [Field(specs, "salary_range", "No salary information found", repr)]));
    PrefixOfAppend(head, p7, ConcernLines(specs));
  }

  /** `line` is `caption` followed by the string under `key`, or by `placeholder` when the key is absent. */
  predicate Shows(line: string, specs: map<string, Value>, key: string, caption: string, placeholder: string) {
    && (key !in specs ==> line == caption + placeholder)
    && (key in specs && specs[key].Str? ==> line == caption + specs[key].s)
  }

  /**
   The overview lines of the report: the URL, then each field under its
   label, with `Not specified` only for an absent key (an empty string is
   shown as it is).
   */
  lemma {:induction false} OverviewFieldLines(url: string, specs: map<string, Value>, repr: Repr)
    ensures var lines := ReportLines(url, specs, repr);
      && |lines| >= 8
      && lines[..3] == ["", "JOB POSTING ANALYSIS:", "URL: " + url]
      && Shows(lines[3], specs, "job_title", "Job Title: ", "Not specified")
      && Shows(lines[4], specs, "company", "Company: ", "Not specified")
      && Shows(lines[5], specs, "location", "Location: ", "Not specified")
      && Shows(lines[6], specs, "experience_level", "Experience Level: ", "Not specified")
      && Shows(lines[7], specs, "employment_type", "Employment Type: ", "Not specified")
  {
    ReportOpening(url, specs, repr);
    var lines := ReportLines(url, specs, repr);
    assert lines[..8] == Overview(url, specs, repr);
  }

  /** Without concerns the report's lines end with the salary section. */
  lemma {:induction false} SalaryEnding(url: string, specs: map<string, Value>, repr: Repr)
    requires !HasConcerns(specs)
    ensures var lines := ReportLines(url, specs, repr);
      |lines| >= 2 && lines[|lines| - 2..] == ["SALARY RANGE:", Field(specs, "salary_range", "No salary information found", repr)]
  {
    AppendEmpty(SectionLines(url, specs, repr));
    SectionEnding(
      Overview(url, specs, repr)
      + Section("KEY REQUIREMENTS:", BulletLines(ListField(specs, "requirements", "No specific requirements found")))
      + Section("RESPONSIBILITIES:", BulletLines(ListField(specs, "responsibilities", "No specific responsibilities found")))
      + Section("REQUIRED SKILLS:", BulletLines(ListField(specs, "skills", "No specific skills listed")))
      + Section("KEY QUALIFICATIONS:", BulletLines(ListField(specs, "key_qualifications", "No key qualifications specified")))
      + Section("BENEFITS:", BulletLines(ListField(specs, "benefits", "No benefits information found")))
      + Section("COMPANY CULTURE:", [Field(specs, "company_culture", "No company culture information found", repr)]),
      "SALARY RANGE:", [Field(specs, "salary_range", "No salary information found", repr)]);
  }

  /** With concerns the report's lines end with the concerns heading and one `- flag` line per flag. */
  lemma {:induction false} ConcernsEnding(url: string, specs: map<string, Value>, repr: Repr)
    requires HasConcerns(specs)
    ensures var lines := ReportLines(url, specs, repr);
      var flags := Dashed(Items(specs["red_flags"]));
      |lines| >= |flags| + 1 && lines[|lines| - |flags| - 1..] == ["POTENTIAL CONCERNS:"] + flags
  {
    var flags := Dashed(Items(specs["red_flags"]));
    SectionEnding(SectionLines(url, specs, repr), "POTENTIAL CONCERNS:", flags);
  }

  /** A section appended last leaves its heading and its lines at the end. */
  lemma {:induction false} SectionEnding(lines: seq<string>, heading: string, body: seq<string>)
    ensures var all := lines + Section(heading, body);
      |all| >= |body| + 1 && all[|all| - |body| - 1..] == [heading] + body
  {
    SuffixOfAppend(lines, Section(heading, body), |body| + 1);
    assert Section(heading, body)[1..] == [heading] + body;
  }

  /**
   With single-line values, the report opens with a blank line, the heading
   and the URL line, then each overview field under its label, with
   `Not specified` only for an absent key.
   */
  lemma {:induction false} OverviewFields(url: string, specs: map<string, Value>, repr: Repr)
    requires NoLineBreak(url)
    requires ReportedSingleLine(specs, repr)
    ensures var lines := SplitLines(Report(url, specs, repr));
      && |lines| >= 8
      && lines[..3] == ["", "JOB POSTING ANALYSIS:", "URL: " + url]
      && Shows(lines[3], specs, "job_title", "Job Title: ", "Not specified")
      && Shows(lines[4], specs, "company", "Company: ", "Not specified")
      && Shows(lines[5], specs, "location", "Location: ", "Not specified")
      && Shows(lines[6], specs, "experience_level", "Experience Level: ", "Not specified")
      && Shows(lines[7], specs, "employment_type", "Employment Type: ", "Not specified")
  {
    ReportLinesExact(url, specs, repr);
    OverviewFieldLines(url, specs, repr);
  }

  /**
   With single-line values, the requirements section of the report is its
   heading and the placeholder bullet when the key is absent, one empty line
   for a present empty list, and one `- item` line per item otherwise.
   */
  lemma {:induction false} RequirementsSection(url: string, specs: map<string, Value>, repr: Repr)
    requires NoLineBreak(url)
    requires ReportedSingleLine(specs, repr)
    ensures var lines := SplitLines(Report(url, specs, repr));
      "requirements" !in specs ==>
        |lines| >= 11 && lines[8..11] == ["", "KEY REQUIREMENTS:", "- " + "No specific requirements found"]
    ensures var lines := SplitLines(Report(url, specs, repr));
      "requirements" in specs && specs["requirements"] == StrList([]) ==>
        |lines| >= 11 && lines[8..11] == ["", "KEY REQUIREMENTS:", ""]
    ensures var lines := SplitLines(Report(url, specs, repr));
      "requirements" in specs && specs["requirements"].StrList? && specs["requirements"].items != [] ==>
        var items := specs["requirements"].items;
        |lines| >= 10 + |items| && lines[8..10 + |items|] == ["", "KEY REQUIREMENTS:"] + Dashed(items)
  {
    ReportLinesExact(url, specs, repr);
    RequirementsSectionLines(url, specs, repr);
  }

  /** With single-line values and no concerns, the report ends with the salary heading and value. */
  lemma {:induction false} ReportEndsWithSalary(url: string, specs: map<string, Value>, repr: Repr)
    requires NoLineBreak(url)
    requires ReportedSingleLine(specs, repr)
    requires !HasConcerns(specs)
    ensures var lines := SplitLines(Report(url, specs, repr));
      |lines| >= 2 && lines[|lines| - 2..] == ["SALARY RANGE:", Field(specs, "salary_range", "No salary information found", repr)]
  {
    ReportLinesExact(url, specs, repr);
    SalaryEnding(url, specs, repr);
  }

  /** With single-line values and truthy `red_flags`, the report ends with the concerns heading and one `- flag` line per flag. */
  lemma {:induction false} ReportEndsWithConcerns(url: string, specs: map<string, Value>, repr: Repr)
    requires NoLineBreak(url)
    requires ReportedSingleLine(specs, repr)
    requires HasConcerns(specs)
    ensures var lines := SplitLines(Report(url, specs, repr));
      var flags := Dashed(Items(specs["red_flags"]));
      |lines| >= |flags| + 1 && lines[|lines| - |flags| - 1..] == ["POTENTIAL CONCERNS:"] + flags
  {
    ReportLinesExact(url, specs, repr);
    ConcernsEnding(url, specs, repr);
  }
}
