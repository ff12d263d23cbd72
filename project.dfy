/**
 * The immutable project tree the executive report is built from: one
 * snapshot of a project with its measures, its four pre-sorted rankings and
 * its sub-projects.
 */
module ProjectModel {

  /** The metrics the executive report reads, one per MetricKeys constant it uses. */
  datatype MetricKey =
    | Ncloc | Packages | Classes | Functions | DuplicatedLinesDensity
    | CommentLinesDensity | CommentLines | FunctionComplexity | ClassComplexity | Complexity
    | Coverage | Tests | TestSuccessDensity | TestFailures | TestErrors
    | TechnicalDebt | Violations | Profile

  /** The localized texts the executive report looks up, one per property key it uses. */
  datatype TextKey =
    | MiscOverview           // main.text.misc.overview
    | ReportOverview         // general.report_overview
    | ViolationsAnalysis     // general.violations_analysis
    | StaticAnalysis         // general.static_analysis
    | LinesOfCode            // general.lines_of_code
    | CommentsTitle          // general.comments
    | ComplexityTitle        // general.complexity
    | DynamicAnalysis        // general.dynamic_analysis
    | CodeCoverage           // general.code_coverage
    | TestSuccess            // general.test_success
    | CodingRulesViolations  // general.coding_rules_violations
    | TechnicalDebtTitle     // general.technical_debt
    | ViolationsTitle        // general.violations
    | MostViolatedRules      // general.most_violated_rules
    | NoViolatedRules        // general.no_violated_rules
    | MostViolatedFiles      // general.most_violated_files
    | NoViolatedFiles        // general.no_violated_files
    | MostComplexFiles       // general.most_complex_files
    | NoComplexFiles         // general.no_complex_files
    | MostDuplicatedFiles    // general.most_duplicated_files
    | NoDuplicatedFiles      // general.no_duplicated_files

  /** A measure: its display text, its raw data text and its two tendencies. */
  datatype Measure = Measure(
    formatValue: string,
    dataValue: string,
    qualitativeTendency: int,
    quantitativeTendency: int)

  datatype Rule = Rule(name: string, violationsNumberFormatted: string)

  datatype FileInfo = FileInfo(
    name: string,
    violations: string,
    complexity: string,
    duplicatedLines: string)

  datatype Project = Project(
    name: string,
    key: string,
    description: string,
    version: string,
    date: int,
    measures: map<MetricKey, Measure>,
    mostViolatedRules: seq<Rule>,
    mostViolatedFiles: seq<FileInfo>,
    mostComplexFiles: seq<FileInfo>,
    mostDuplicatedFiles: seq<FileInfo>,
    subprojects: seq<Project>)

  /**
   * The read-only configuration of one report run. `text` is the localized
   * text lookup, `config` the report property lookup, `formatDate` the
   * yyyy-MM-dd rendering of an analysis date, and `noData` the measure a
   * project answers for a metric it does not hold.
   */
  datatype Resources = Resources(
    text: TextKey -> string,
    config: string -> string,
    formatDate: int -> string,
    noData: Measure)

  function MeasureOf(p: Project, k: MetricKey, res: Resources): Measure {
    if k in p.measures then p.measures[k] else res.noData
  }
}
