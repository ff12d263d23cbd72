/**
 * The executive PDF report: which chapters, sections and elements it writes,
 * in which order, and the exact text of its formatted values.
 */
module ExecutiveReporter {

  import opened Wrappers
  import opened Strings
  import opened ProjectModel
  import opened Document

  /** Unit suffix of the technical-debt delta; its leading space is part of it. */
  const DayFormat := " d"
  /** Unit suffix of the violations delta: none. */
  const NoneFormat := ""

  /** Placeholder deltas the dashboard shows for technical debt and violations. */
  const TechnicalDebtDelta := -200
  const ViolationsDelta := -1345

  /** The most-violated-rules table shows at most this many rules. */
  const MaxRankedRules := 5

  const FrontPageLogoKey := "front.page.logo"
  const RemoteLogoScheme := "http://"

  // ---------------------------------------------------------------------
  // Front page
  // ---------------------------------------------------------------------

  /** Where the large front-page logo is loaded from. */
  datatype LogoSource = RemoteUrl(url: string) | ClasspathResource(path: string)

  /** The logo is fetched as a URL exactly when the setting starts with "http://". */
  function FrontPageLogoSource(setting: string): (src: LogoSource)
    ensures src.RemoteUrl? <==> StartsWith(setting, RemoteLogoScheme)
    ensures src == RemoteUrl(setting) || src == ClasspathResource(setting)
  {
    if StartsWith(setting, RemoteLogoScheme) then RemoteUrl(setting) else ClasspathResource(setting)
  }

  /** An "https://" setting is not recognised as remote and is looked up on the classpath. */
  lemma HttpsLogoIsClasspathResource(rest: string)
    ensures FrontPageLogoSource("https://" + rest) == ClasspathResource("https://" + rest)
  {
    assert ("https://" + rest)[4] == 's' != RemoteLogoScheme[4];
  }

  /**
   * The outcome of printing the front page: either the logo and the title
   * rows were drawn, or the failure was logged and nothing was drawn. There
   * is no failing outcome: printing the front page never aborts the report.
   */
  datatype FrontPage =
    | Drawn(logo: LogoSource, rows: seq<string>)
    | Logged(logo: LogoSource)

  /** `logoLoads` says whether the image could be read from its source. */
  function PrintFrontPage(p: Project, res: Resources, logoLoads: bool): (page: FrontPage)
    ensures page.logo == FrontPageLogoSource(res.config(FrontPageLogoKey))
    ensures page.Drawn? <==> logoLoads
    ensures page.Drawn? ==>
              |page.rows| == 5 && page.rows[0] == p.name
              && page.rows[1] == p.version && page.rows[2] == p.description
              && page.rows[3] == MeasureOf(p, Profile, res).dataValue
              && page.rows[4] == res.formatDate(p.date)
  {
    var logo := FrontPageLogoSource(res.config(FrontPageLogoKey));
    if logoLoads then
      Drawn(logo, [p.name, p.version, p.description, MeasureOf(p, Profile, res).dataValue,
                   res.formatDate(p.date)])
    else Logged(logo)
  }

  // ---------------------------------------------------------------------
  // Delta formatting
  // ---------------------------------------------------------------------

  /** A signed delta followed by its unit: "+" only for a positive delta. */
  function FormatValue(delta: int, suffix: string): (r: string)
    ensures |r| > |suffix| && r[|r| - |suffix|..] == suffix
    ensures r[0] == '+' <==> delta > 0
    ensures r[0] == '-' <==> delta < 0
    ensures delta == 0 ==> r == "0" + suffix
    ensures delta != 0 ==> |r| > |suffix| + 1 && r[1] != '0'
  {
    (if delta > 0 then "+" else "") + IntToString(delta) + suffix
  }

  /** Removing the unit and parsing the rest as an int gives the delta back. */
  lemma FormatValueRoundTrip(delta: int, suffix: string)
    ensures var r := FormatValue(delta, suffix); ParseInt(r[..|r| - |suffix|]) == Some(delta)
  {
    var r := FormatValue(delta, suffix);
    var digits := IntToString(delta);
    if delta > 0 {
      assert r[..|r| - |suffix|] == "+" + digits;
      assert ("+" + digits)[1..] == digits;
      ParseNatToString(delta);
    } else {
      assert r[..|r| - |suffix|] == digits;
      IntToStringRoundTrip(delta);
    }
  }

  /** Two different deltas never render alike under the same unit. */
  lemma FormatValueInjective(d1: int, d2: int, suffix: string)
    requires FormatValue(d1, suffix) == FormatValue(d2, suffix)
    ensures d1 == d2
  {
    FormatValueRoundTrip(d1, suffix);
    FormatValueRoundTrip(d2, suffix);
  }

  // ---------------------------------------------------------------------
  // Dashboard
  // ---------------------------------------------------------------------

  function TendencyOf(m: Measure): Tendency {
    Tendency(m.qualitativeTendency, m.quantitativeTendency)
  }

  /** A measure's display text followed by a fixed annotation suffix. */
  function Annotation(p: Project, res: Resources, k: MetricKey, suffix: string): string {
    MeasureOf(p, k, res).formatValue + suffix
  }

  /**
   * The layout of one indicator cell of the dashboard: its title, the metric
   * shown with its tendency icon (and the suffix after its value), and the
   * metrics annotated under it with their suffixes.
   */
  datatype IndicatorLayout = IndicatorLayout(
    title: TextKey,
    metric: MetricKey,
    valueSuffix: string,
    notes: seq<(MetricKey, string)>)

  /** Lines of code, comments and complexity. */
  const StaticAnalysisLayout: seq<IndicatorLayout> :=
    [ IndicatorLayout(LinesOfCode, Ncloc, "",
        [ (Packages, " packages"), (Classes, " classes"), (Functions, " methods"),
          (DuplicatedLinesDensity, " duplicated lines") ]),
      IndicatorLayout(CommentsTitle, CommentLinesDensity, "", [ (CommentLines, " comment lines") ]),
      IndicatorLayout(ComplexityTitle, FunctionComplexity, "",
        [ (ClassComplexity, " /class"), (Complexity, " decision points") ]) ]

  /** Code coverage and test success. */
  const DynamicAnalysisLayout: seq<IndicatorLayout> :=
    [ IndicatorLayout(CodeCoverage, Coverage, " coverage", [ (Tests, " tests") ]),
      IndicatorLayout(TestSuccess, TestSuccessDensity, "",
        [ (TestFailures, " failures"), (TestErrors, " errors") ]) ]

  /** The annotation lines of one layout, in order. */
  function NoteLines(p: Project, res: Resources, notes: seq<(MetricKey, string)>): (lines: seq<string>)
    ensures |lines| == |notes|
    ensures forall j :: 0 <= j < |notes| ==> lines[j] == Annotation(p, res, notes[j].0, notes[j].1)
  {
    seq(|notes|, j requires 0 <= j < |notes| => Annotation(p, res, notes[j].0, notes[j].1))
  }

  function IndicatorOf(p: Project, res: Resources, layout: IndicatorLayout): Cell {
    Indicator(res.text(layout.title), Annotation(p, res, layout.metric, layout.valueSuffix),
              TendencyOf(MeasureOf(p, layout.metric, res)), NoteLines(p, res, layout.notes))
  }

  function Indicators(p: Project, res: Resources, layouts: seq<IndicatorLayout>): (cells: seq<Cell>)
    ensures |cells| == |layouts|
    ensures forall i :: 0 <= i < |layouts| ==> cells[i] == IndicatorOf(p, res, layouts[i])
  {
    seq(|layouts|, i requires 0 <= i < |layouts| => IndicatorOf(p, res, layouts[i]))
  }

  /** The issue-detail block for one metric, showing `delta` formatted with `format`. */
  function IssueDetailOf(p: Project, res: Resources, header: TextKey, k: MetricKey,
                         delta: int, format: string): Cell
  {
    IssueDetail(res.text(header), MeasureOf(p, k, res).formatValue,
                TendencyOf(MeasureOf(p, k, res)), FormatValue(delta, format))
  }

  /**
   * An issue-detail block shows the header text, the measure's display text
   * and tendency, and `delta` rendered with the unit `format`, whose number
   * reads back as `delta`.
   */
  lemma IssueDetailContents(p: Project, res: Resources, header: TextKey, k: MetricKey,
                            delta: int, format: string)
    ensures var cell := IssueDetailOf(p, res, header, k, delta, format);
      cell.IssueDetail?
      && cell.header == res.text(header) && cell.value == MeasureOf(p, k, res).formatValue
      && cell.tendency.qualitative == MeasureOf(p, k, res).qualitativeTendency
      && cell.tendency.quantitative == MeasureOf(p, k, res).quantitativeTendency
      && |cell.delta| > |format| && cell.delta[|cell.delta| - |format|..] == format
      && ParseInt(cell.delta[..|cell.delta| - |format|]) == Some(delta)
  {
    FormatValueRoundTrip(delta, format);
  }

  function CodingRulesCells(p: Project, res: Resources): seq<Cell> {
    [ IssueDetailOf(p, res, TechnicalDebtTitle, TechnicalDebt, TechnicalDebtDelta, DayFormat),
      Blank,
      IssueDetailOf(p, res, ViolationsTitle, Violations, ViolationsDelta, NoneFormat) ]
  }

  /** What printDashboard adds to its section, one element per `section.add`. */
  function DashboardElements(p: Project, res: Resources): seq<Element> {
    [ Newline,
      Paragraph(res.text(StaticAnalysis)), Row(Indicators(p, res, StaticAnalysisLayout)),
      Paragraph(res.text(DynamicAnalysis)), Row(Indicators(p, res, DynamicAnalysisLayout) + [Blank]),
      Paragraph(res.text(CodingRulesViolations)), Row(CodingRulesCells(p, res)) ]
  }

  /**
   * Every value and annotation line of the dashboard's indicators is a
   * measure's display text followed by a fixed suffix: the value of lines of
   * code, comments, complexity and test success stands alone, the coverage
   * value carries " coverage", and each annotation carries the suffix its
   * layout gives it.
   */
  lemma DashboardAnnotations(p: Project, res: Resources)
    ensures var d := DashboardElements(p, res);
      |d| == 7 && |d[2].cells| == 3 && |d[4].cells| == 3
      && d[2].cells[0].value == MeasureOf(p, Ncloc, res).formatValue
      && d[2].cells[0].notes == [ MeasureOf(p, Packages, res).formatValue + " packages",
                                  MeasureOf(p, Classes, res).formatValue + " classes",
                                  MeasureOf(p, Functions, res).formatValue + " methods",
                                  MeasureOf(p, DuplicatedLinesDensity, res).formatValue
                                    + " duplicated lines" ]
      && d[2].cells[1].value == MeasureOf(p, CommentLinesDensity, res).formatValue
      && d[2].cells[1].notes == [ MeasureOf(p, CommentLines, res).formatValue + " comment lines" ]
      && d[2].cells[2].value == MeasureOf(p, FunctionComplexity, res).formatValue
      && d[2].cells[2].notes == [ MeasureOf(p, ClassComplexity, res).formatValue + " /class",
                                  MeasureOf(p, Complexity, res).formatValue + " decision points" ]
      && d[4].cells[0].value == MeasureOf(p, Coverage, res).formatValue + " coverage"
      && d[4].cells[0].notes == [ MeasureOf(p, Tests, res).formatValue + " tests" ]
      && d[4].cells[1].value == MeasureOf(p, TestSuccessDensity, res).formatValue
      && d[4].cells[1].notes == [ MeasureOf(p, TestFailures, res).formatValue + " failures",
                                  MeasureOf(p, TestErrors, res).formatValue + " errors" ]
      && d[4].cells[2] == Blank
  {
  }

  /**
   * The coding-rules row: the technical-debt block, a blank cell and the
   * violations block. Each block shows its own header, its metric's display
   * text and tendency, and a delta that is the same literal for every
   * project: "-200 d" for technical debt and "-1345" for violations.
   */
  lemma CodingRulesBlocks(p: Project, res: Resources)
    ensures var cells := CodingRulesCells(p, res);
      |cells| == 3 && cells[1] == Blank
      && cells[0] == IssueDetail(res.text(TechnicalDebtTitle),
                                 MeasureOf(p, TechnicalDebt, res).formatValue,
                                 TendencyOf(MeasureOf(p, TechnicalDebt, res)), "-200 d")
      && cells[2] == IssueDetail(res.text(ViolationsTitle),
                                 MeasureOf(p, Violations, res).formatValue,
                                 TendencyOf(MeasureOf(p, Violations, res)), "-1345")
  {
    assert NatToString(200) == "200" by {
      assert NatToString(20) == NatToString(2) + "0";
    }
    assert NatToString(1345) == "1345" by {
      assert NatToString(134) == NatToString(13) + "4";
    }
  }

  method PrintDashboard(p: Project, res: Resources, section: Section)
    modifies section
    ensures section.elements == old(section.elements) + DashboardElements(p, res)
  {
    var staticAnalysis := Indicators(p, res, StaticAnalysisLayout);
    var dynamicAnalysis := Indicators(p, res, DynamicAnalysisLayout) + [Blank];
    var technicalDebt := IssueDetailOf(p, res, TechnicalDebtTitle, TechnicalDebt,
                                       TechnicalDebtDelta, DayFormat);
    var violations := IssueDetailOf(p, res, ViolationsTitle, Violations,
                                    ViolationsDelta, NoneFormat);
    var codingRulesViolations := [technicalDebt, Blank, violations];

    section.Add(Newline);
    section.Add(Paragraph(res.text(StaticAnalysis)));
    section.Add(Row(staticAnalysis));
    section.Add(Paragraph(res.text(DynamicAnalysis)));
    section.Add(Row(dynamicAnalysis));
    section.Add(Paragraph(res.text(CodingRulesViolations)));
    section.Add(Row(codingRulesViolations));
  }

  // ---------------------------------------------------------------------
  // Ranked lists
  // ---------------------------------------------------------------------

  function Min(a: int, b: int): int {
    if a <= b then a else b
  }

  /** `f` applied to every element, in order. */
  function Column<T>(xs: seq<T>, f: T -> string): (col: seq<string>)
    ensures |col| == |xs|
    ensures forall i :: 0 <= i < |xs| ==> col[i] == f(xs[i])
  {
    seq(|xs|, i requires 0 <= i < |xs| => f(xs[i]))
  }

  function RuleName(r: Rule): string { r.name }
  function RuleViolations(r: Rule): string { r.violationsNumberFormatted }
  function FileName(f: FileInfo): string { f.name }
  function FileViolations(f: FileInfo): string { f.violations }
  function FileComplexity(f: FileInfo): string { f.complexity }
  function FileDuplicatedLines(f: FileInfo): string { f.duplicatedLines }

  /** The rules the most-violated-rules table shows: the first five, as ranked upstream. */
  function TopRules(rules: seq<Rule>): seq<Rule> {
    rules[..Min(MaxRankedRules, |rules|)]
  }

  function MostViolatedRulesTable(p: Project, res: Resources): Element {
    var top := TopRules(p.mostViolatedRules);
    SimpleTable(res.text(MostViolatedRules), res.text(NoViolatedRules),
                Column(top, RuleName), Column(top, RuleViolations))
  }

  function MostViolatedFilesTable(p: Project, res: Resources): Element {
    SimpleTable(res.text(MostViolatedFiles), res.text(NoViolatedFiles),
                Column(p.mostViolatedFiles, FileName), Column(p.mostViolatedFiles, FileViolations))
  }

  function MostComplexFilesTable(p: Project, res: Resources): Element {
    SimpleTable(res.text(MostComplexFiles), res.text(NoComplexFiles),
                Column(p.mostComplexFiles, FileName), Column(p.mostComplexFiles, FileComplexity))
  }

  function MostDuplicatedFilesTable(p: Project, res: Resources): Element {
    SimpleTable(res.text(MostDuplicatedFiles), res.text(NoDuplicatedFiles),
                Column(p.mostDuplicatedFiles, FileName),
                Column(p.mostDuplicatedFiles, FileDuplicatedLines))
  }

  /** The four ranking tables of a violations-analysis section, in their fixed order. */
  function RankedTables(p: Project, res: Resources): seq<Element> {
    [ MostViolatedRulesTable(p, res), MostViolatedFilesTable(p, res),
      MostComplexFilesTable(p, res), MostDuplicatedFilesTable(p, res) ]
  }

  /**
   * The two columns of the most-violated-rules table: names on the left and
   * formatted counts on the right, for at most the first five rules, in the
   * order given, nothing re-sorted.
   */
  method RankedRuleColumns(rules: seq<Rule>) returns (left: seq<string>, right: seq<string>)
    ensures |left| == |right| == Min(MaxRankedRules, |rules|)
    ensures forall i :: 0 <= i < |left| ==>
              left[i] == rules[i].name && right[i] == rules[i].violationsNumberFormatted
  {
    left, right := [], [];
    // the iterator has handed out exactly `limit` rules so far
    var limit := 0;
    while limit < |rules| && limit < MaxRankedRules
      invariant 0 <= limit <= Min(MaxRankedRules, |rules|)
      invariant |left| == |right| == limit
      invariant forall i :: 0 <= i < limit ==>
                  left[i] == rules[i].name && right[i] == rules[i].violationsNumberFormatted
    {
      var rule := rules[limit];
      left := left + [rule.name];
      right := right + [rule.violationsNumberFormatted];
      limit := limit + 1;
    }
  }

  /**
   * The two columns of a file ranking: every file's name on the left and the
   * ranked attribute `value` on the right, for the whole list, in order.
   */
  method RankedFileColumns(files: seq<FileInfo>, value: FileInfo -> string)
    returns (left: seq<string>, right: seq<string>)
    ensures |left| == |right| == |files|
    ensures forall i :: 0 <= i < |files| ==> left[i] == files[i].name && right[i] == value(files[i])
  {
    left, right := [], [];
    var it := 0;
    while it < |files|
      invariant 0 <= it <= |files|
      invariant |left| == |right| == it
      invariant forall i :: 0 <= i < it ==> left[i] == files[i].name && right[i] == value(files[i])
    {
      var file := files[it];
      left := left + [file.name];
      right := right + [value(file)];
      it := it + 1;
    }
  }

  method PrintMostViolatedRules(p: Project, res: Resources, section: Section)
    modifies section
    ensures section.elements == old(section.elements) + [MostViolatedRulesTable(p, res)]
  {
    var left, right := RankedRuleColumns(p.mostViolatedRules);
    var top := TopRules(p.mostViolatedRules);
    assert left == Column(top, RuleName) && right == Column(top, RuleViolations);
    section.Add(SimpleTable(res.text(MostViolatedRules), res.text(NoViolatedRules), left, right));
  }

  method PrintMostViolatedFiles(p: Project, res: Resources, section: Section)
    modifies section
    ensures section.elements == old(section.elements) + [MostViolatedFilesTable(p, res)]
  {
    var left, right := RankedFileColumns(p.mostViolatedFiles, FileViolations);
    assert left == Column(p.mostViolatedFiles, FileName);
    assert right == Column(p.mostViolatedFiles, FileViolations);
    section.Add(SimpleTable(res.text(MostViolatedFiles), res.text(NoViolatedFiles), left, right));
  }

  method PrintMostComplexFiles(p: Project, res: Resources, section: Section)
    modifies section
    ensures section.elements == old(section.elements) + [MostComplexFilesTable(p, res)]
  {
    var left, right := RankedFileColumns(p.mostComplexFiles, FileComplexity);
    assert left == Column(p.mostComplexFiles, FileName);
    assert right == Column(p.mostComplexFiles, FileComplexity);
    section.Add(SimpleTable(res.text(MostComplexFiles), res.text(NoComplexFiles), left, right));
  }

  method PrintMostDuplicatedFiles(p: Project, res: Resources, section: Section)
    modifies section
    ensures section.elements == old(section.elements) + [MostDuplicatedFilesTable(p, res)]
  {
    var left, right := RankedFileColumns(p.mostDuplicatedFiles, FileDuplicatedLines);
    assert left == Column(p.mostDuplicatedFiles, FileName);
    assert right == Column(p.mostDuplicatedFiles, FileDuplicatedLines);
    section.Add(SimpleTable(res.text(MostDuplicatedFiles), res.text(NoDuplicatedFiles), left, right));
  }

  // ---------------------------------------------------------------------
  // Chapters
  // ---------------------------------------------------------------------

  /**
   * One project's chapter: headed by the project's name, opened by the
   * overview paragraph for the root project only, with an overview section
   * holding the dashboard and a violations-analysis section holding the four
   * ranking tables.
   */
  function ChapterOf(p: Project, res: Resources, isRoot: bool): ChapterBlock {
    ChapterBlock(p.name,
                 if isRoot then [Paragraph(res.text(MiscOverview))] else [],
                 [ SectionBlock(res.text(ReportOverview), DashboardElements(p, res)),
                   SectionBlock(res.text(ViolationsAnalysis), RankedTables(p, res)) ])
  }

  /** What printPdfBody writes: the root chapter, then one chapter per sub-project. */
  function BodyChapters(root: Project, res: Resources): seq<ChapterBlock> {
    [ChapterOf(root, res, true)]
    + seq(|root.subprojects|, i requires 0 <= i < |root.subprojects| =>
            ChapterOf(root.subprojects[i], res, false))
  }

  method PrintChapter(p: Project, res: Resources, isRoot: bool, document: Document)
    modifies document
    ensures document.chapters == old(document.chapters) + [ChapterOf(p, res, isRoot)]
  {
    var intro := if isRoot then [Paragraph(res.text(MiscOverview))] else [];
    var overview := new Section(res.text(ReportOverview));
    PrintDashboard(p, res, overview);
    assert overview.elements == DashboardElements(p, res);
    var violations := new Section(res.text(ViolationsAnalysis));
    PrintMostViolatedRules(p, res, violations);
    PrintMostViolatedFiles(p, res, violations);
    PrintMostComplexFiles(p, res, violations);
    PrintMostDuplicatedFiles(p, res, violations);
    assert violations.elements == RankedTables(p, res);
    document.Add(ChapterBlock(p.name, intro, [overview.Contents(), violations.Contents()]));
  }

  /** Chapter i + 1 of the body is sub-project i's. */
  lemma BodyChapterAt(root: Project, res: Resources, i: nat)
    requires i < |root.subprojects|
    ensures BodyChapters(root, res)[i + 1] == ChapterOf(root.subprojects[i], res, false)
  {
  }

  /** A prefix one element longer. */
  lemma TakeOneMore<T>(s: seq<T>, k: nat)
    requires k < |s|
    ensures s[..k + 1] == s[..k] + [s[k]]
  {
  }

  lemma BodyChaptersFirst(root: Project, res: Resources)
    ensures BodyChapters(root, res)[..1] == [ChapterOf(root, res, true)]
  {
  }

  lemma BodyChaptersWhole(root: Project, res: Resources)
    ensures BodyChapters(root, res)[..|root.subprojects| + 1] == BodyChapters(root, res)
  {
  }

  method PrintPdfBody(root: Project, res: Resources, document: Document)
    modifies document
    ensures document.chapters == old(document.chapters) + BodyChapters(root, res)
  {
    ghost var body := BodyChapters(root, res);
    PrintChapter(root, res, true, document);
    BodyChaptersFirst(root, res);
    var subprojects := root.subprojects;
    var it := 0;
    while it < |subprojects|
      invariant 0 <= it <= |subprojects|
      invariant document.chapters == old(document.chapters) + body[..it + 1]
    {
      var subproject := subprojects[it];
      PrintChapter(subproject, res, false, document);
      TakeOneMore(body, it + 1);
      BodyChapterAt(root, res, it);
      it := it + 1;
    }
    BodyChaptersWhole(root, res);
  }

  // ---------------------------------------------------------------------
  // Properties of the body
  // ---------------------------------------------------------------------

  /**
   * The body has 1 + |subprojects| chapters: the root's first, then
   * sub-project i's as chapter i + 1. Sub-projects of sub-projects get no
   * chapter of their own.
   */
  lemma BodyChapterOrder(root: Project, res: Resources)
    ensures var body := BodyChapters(root, res);
      |body| == 1 + |root.subprojects|
      && body[0].title == root.name
      && forall i :: 0 <= i < |root.subprojects| ==> body[i + 1].title == root.subprojects[i].name
  {
  }

  /**
   * Every chapter has an overview section holding the dashboard and then a
   * violations-analysis section holding exactly the four ranking tables, in
   * the order rules, violated files, complex files, duplicated files. Only
   * the root chapter has the overview paragraph.
   */
  lemma ChapterLayout(p: Project, res: Resources, isRoot: bool)
    ensures var c := ChapterOf(p, res, isRoot);
      |c.sections| == 2
      && c.sections[0] == SectionBlock(res.text(ReportOverview), DashboardElements(p, res))
      && c.sections[1].title == res.text(ViolationsAnalysis)
      && |c.sections[1].elements| == 4
      && c.sections[1].elements[0].title == res.text(MostViolatedRules)
      && c.sections[1].elements[1].title == res.text(MostViolatedFiles)
      && c.sections[1].elements[2].title == res.text(MostComplexFiles)
      && c.sections[1].elements[3].title == res.text(MostDuplicatedFiles)
      && c.intro == (if isRoot then [Paragraph(res.text(MiscOverview))] else [])
  {
  }
}
