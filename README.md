# SonarQube PDF Report — executive report and post job, in Dafny

This project models two pieces of the SonarQube PDF Report plugin:

- the **executive reporter**, which lays out the executive PDF report. Its front page has a logo and five title rows. Its body has one chapter for the analysed project and then one chapter per sub-project. Each chapter holds an overview section with the dashboard (static analysis, dynamic analysis, coding-rule issues) and a violations-analysis section with four ranking tables. The model produces the report's structure and the exact text of every value, annotation and delta it writes. Drawing (fonts, widths, images) is not modelled.
- the **post job**, which runs after an analysis. It decides whether to produce the report, starts the report generator with the project's settings, works out the path of the generated PDF, and uploads the file to the server only if it exists.

Files:

- `wrappers.dfy`: the `Option` type, which stands for a Java reference that may be null.
- `strings.dfy`: decimal rendering of integers (Java's `int` to `String`) and its parser, and character replacement (`String.replace(char, char)`).
- `project.dfy`: the project, its measures, ranked rules and files, and the resources the reporter reads. Localised texts and configuration entries are functions. Text keys are an enumeration.
- `document.dfy`: the report document. The `Section` and `Document` classes grow by `Add`, as the iText section and document do. A finished section or chapter is a value.
- `executive_reporter.dfy`: the executive reporter.
- `post_job.dfy`: the post-analysis job.

## Model

| member | source | states |
|---|---|---|
| Strings.NatToString | src/main/java/org/sonar/report/pdf/ExecutivePDFReporter.java:400-402 | The decimal text of a natural number is non-empty and made of digits only. It has a leading '0' exactly when the number is 0. |
| Strings.IntToString | src/main/java/org/sonar/report/pdf/ExecutivePDFReporter.java:400-402 | An int's text starts with '-' exactly when the int is negative. It is exactly the decimal text of its magnitude, after the '-' when negative. |
| Strings.ParseNatToString | src/main/java/org/sonar/report/pdf/ExecutivePDFReporter.java:400-402 | Parsing the digits of a natural number gives the number back. |
| Strings.IntToStringRoundTrip | src/main/java/org/sonar/report/pdf/ExecutivePDFReporter.java:400-402 | Parsing an int's text gives the int back. |
| Strings.Replace | src/main/java/org/sonar/report/pdf/batch/PDFPostJob.java:73 | Replacing one character by another keeps the length. It changes exactly the occurrences of the first character. None of them remains afterwards. |
| ExecutiveReporter.FrontPageLogoSource | src/main/java/org/sonar/report/pdf/ExecutivePDFReporter.java:106-112 | The front-page logo is loaded from a URL exactly when the "front.page.logo" setting starts with "http://". Otherwise it is a classpath resource named by the setting. |
| ExecutiveReporter.HttpsLogoIsClasspathResource | src/main/java/org/sonar/report/pdf/ExecutivePDFReporter.java:107-112 | A setting starting with "https://" is looked up as a classpath resource, not fetched. |
| ExecutiveReporter.PrintFrontPage | src/main/java/org/sonar/report/pdf/ExecutivePDFReporter.java:103-150 | The logo comes from the source chosen above. The title rows are drawn exactly when the logo loads. They are, in order, name, version, description, quality profile and date. A load failure is logged and does not abort the report. |
| ExecutiveReporter.FormatValue | src/main/java/org/sonar/report/pdf/ExecutivePDFReporter.java:400-402 | A delta is rendered as its sign and digits followed by the unit. It starts with '+' exactly when positive and with '-' exactly when negative. A zero delta is "0" plus the unit. A non-zero delta has no leading zero after its sign. |
| ExecutiveReporter.FormatValueRoundTrip | src/main/java/org/sonar/report/pdf/ExecutivePDFReporter.java:400-402 | Stripping the unit from a rendered delta and parsing the rest, with its optional '+', gives the delta back. |
| ExecutiveReporter.FormatValueInjective | src/main/java/org/sonar/report/pdf/ExecutivePDFReporter.java:400-402 | Different deltas never render to the same text under the same unit. |
| ExecutiveReporter.IssueDetailContents | src/main/java/org/sonar/report/pdf/ExecutivePDFReporter.java:357-398 | An issue-detail block shows the header text, the metric's display text and the tendency pair of that measure. It ends with the delta rendered with its unit. The delta's number reads back as the delta. |
| ExecutiveReporter.CodingRulesBlocks | src/main/java/org/sonar/report/pdf/ExecutivePDFReporter.java:334-343 | The coding-rules row is the technical-debt block, a blank and the violations block. Each block has its own header, its metric's display text and its tendency. The technical-debt block always shows the delta "-200 d" and the violations block always shows "-1345". |
| ExecutiveReporter.DashboardAnnotations | src/main/java/org/sonar/report/pdf/ExecutivePDFReporter.java:203-324 | The dashboard has seven elements. Each indicator's value and annotation lines are a measure's display text plus a fixed suffix: " packages", " classes", " methods", " duplicated lines", " comment lines", " /class", " decision points", " coverage", " tests", " failures", " errors". The dynamic-analysis row ends with a blank cell. |
| ExecutiveReporter.PrintDashboard | src/main/java/org/sonar/report/pdf/ExecutivePDFReporter.java:192-355 | Adds to the section, in order: a newline, the static-analysis title and row, the dynamic-analysis title and row, and the coding-rules title and row. The last row is the technical-debt block, a blank and the violations block. Each block is built as getIssueDetail builds it (357-398). |
| ExecutiveReporter.RankedRuleColumns | src/main/java/org/sonar/report/pdf/ExecutivePDFReporter.java:441-452 | The rules table takes at most the first five rules, in the order given. Names go on the left and formatted violation counts on the right. |
| ExecutiveReporter.RankedFileColumns | src/main/java/org/sonar/report/pdf/ExecutivePDFReporter.java:405-413 | A file ranking lists every file in order. Its name goes on the left and the ranked attribute on the right. |
| ExecutiveReporter.PrintMostViolatedRules | src/main/java/org/sonar/report/pdf/ExecutivePDFReporter.java:440-458 | Adds one table to the section: the top-five rule columns with the "most violated rules" title and its empty-list text. |
| ExecutiveReporter.PrintMostViolatedFiles | src/main/java/org/sonar/report/pdf/ExecutivePDFReporter.java:460-476 | Adds one table to the section: file names and violation counts with the "most violated files" title and its empty-list text. |
| ExecutiveReporter.PrintMostComplexFiles | src/main/java/org/sonar/report/pdf/ExecutivePDFReporter.java:422-438 | Adds one table to the section: file names and complexities with the "most complex files" title and its empty-list text. |
| ExecutiveReporter.PrintMostDuplicatedFiles | src/main/java/org/sonar/report/pdf/ExecutivePDFReporter.java:404-420 | Adds one table to the section: file names and duplicated lines with the "most duplicated files" title and its empty-list text. |
| ExecutiveReporter.PrintChapter | src/main/java/org/sonar/report/pdf/ExecutivePDFReporter.java:156-167 | Adds one chapter for a project: the overview section holding the dashboard, then the violations-analysis section holding the four tables. |
| ExecutiveReporter.PrintPdfBody | src/main/java/org/sonar/report/pdf/ExecutivePDFReporter.java:153-190 | Appends to the document exactly the chapter of the root project, then one chapter per sub-project in order. |
| ExecutiveReporter.BodyChapterOrder | src/main/java/org/sonar/report/pdf/ExecutivePDFReporter.java:156-189 | The body has one chapter more than the root has sub-projects. The first is titled with the root's name and chapter i + 1 with sub-project i's name. |
| ExecutiveReporter.ChapterLayout | src/main/java/org/sonar/report/pdf/ExecutivePDFReporter.java:156-189 | Every chapter has two sections. The first holds the dashboard. The second holds four tables in the order rules, violated files, complex files, duplicated files. Only the root chapter opens with a paragraph, and it is the "main.text.misc.overview" text. |
| PostJob.ShouldExecuteOnProject | src/main/java/org/sonar/report/pdf/batch/PDFPostJob.java:37-58 | The job runs on a project without settings. Otherwise it runs exactly when "sonar.pdf.skip" is false. |
| PostJob.ReportPath | src/main/java/org/sonar/report/pdf/batch/PDFPostJob.java:72-73 | The report path is the working directory, "/", the project key and ".pdf". Every ':' in the key becomes '-' and all other characters are kept. No ':' remains in the key part. |
| PostJob.ReportPathsCollide | src/main/java/org/sonar/report/pdf/batch/PDFPostJob.java:72-73 | Two project keys share a report file exactly when they agree once ':' is turned into '-'. |
| PostJob.ExecuteOn | src/main/java/org/sonar/report/pdf/batch/PDFPostJob.java:60-81 | Without settings the job fails before generating anything. Otherwise the generator gets the host URL, user name, password, branch and report type from the settings. The report path is the one above. The file is uploaded to the host URL plus "/pdf_report/store" exactly when it exists; if it does not, an error is logged. |

## Left out

- Rendering: iText tables, fonts, widths, spacing, images and their scaling are not modelled. A tendency icon (`getTendencyImage`) is recorded as the pair of qualitative and quantitative tendencies it is drawn from.
- Localised texts and configuration entries are functions of the key. Their property files are not part of this model.
- `Project.getMeasure` is not part of this model. A metric the project has no measure for yields one fixed placeholder measure.
- The date formatter (`SimpleDateFormat("yyyy-MM-dd")`) is a function of the analysis date.
- Metric keys are an enumeration, not their string values.
- `Style.createSimpleTable` is not part of this model. A table is its title, its empty-list text and its two columns. What it draws for an empty list is not stated.
- `printTocTitle`, `getReportType` and the constructor and getters of the reporter are trivial accessors or rendering and are not modelled.
- PrintFrontPage: whether the logo image loads is an input. A classpath lookup that finds nothing, which in Java passes null to the image loader and fails outside the caught exceptions, is not distinguished from a load failure.
- FormatValue: Java's 32-bit `int` is not modelled. The delta is unbounded, and the reporter only passes the literals -200 and -1345.
- PrintChapter: iText sections are children of their chapter while they are being filled. Here each section is filled as an object and then stored in the chapter value when the chapter is added to the document.
- PostJob.ExecuteOn: the settings are read without a null check, although ShouldExecuteOnProject admits a project without settings. The resulting NullPointerException is modelled as the `SettingsMissing` outcome.
- PostJob.ExecuteOn: the generator run, the file-existence check, the HTTP upload and logging are host services. The generator's arguments are returned, and the existence check is an input.
- PostJob.ExecuteOn: unset string settings (null in Java) are not modelled, except for the branch, which is optional. String concatenation with a null host URL is not modelled.
