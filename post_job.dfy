/**
 * The post-analysis job that generates the PDF report and sends it to the
 * server: whether it runs for a project, where the report file is expected,
 * and when the file is uploaded. Settings, the file system and the upload are
 * host services; they appear here as the values they provide.
 */
module PostJob {

  import opened Wrappers
  import opened Strings

  /** Value of "sonar.pdf.skip" assumed when the project has no settings. */
  const SkipPdfDefault := false

  /** Path on the server that stores uploaded reports. */
  const UploadPath := "/pdf_report/store"

  /** The project settings the job reads. */
  datatype Settings = Settings(
    skipPdf: bool,             // sonar.pdf.skip, false when unset
    hostUrl: string,           // sonar.host.url
    username: string,          // sonar.pdf.username
    password: string,          // sonar.pdf.password
    branch: Option<string>,    // sonar.branch
    reportType: string)        // report.type

  /** What the report generator is started with. */
  datatype GeneratorRequest = GeneratorRequest(
    hostUrl: string,
    username: string,
    password: string,
    branch: Option<string>,
    reportType: string)

  /** What happens to the generated file: uploaded, or an error is logged. */
  datatype Delivery =
    | Uploaded(file: string, target: string)
    | NotFound(file: string)

  /**
   * One run of the job. A project without settings cannot be run: the job
   * reads its settings before anything else, and fails there.
   */
  datatype Run =
    | SettingsMissing
    | Ran(generator: GeneratorRequest, delivery: Delivery)

  /** The job runs unless the settings ask to skip it; without settings it runs. */
  function ShouldExecuteOnProject(settings: Option<Settings>): (execute: bool)
    ensures settings.None? ==> execute
    ensures settings.Some? ==> (execute <==> !settings.value.skipPdf)
  {
    !(if settings.None? then SkipPdfDefault else settings.value.skipPdf)
  }

  /**
   * The file the generator writes: the working directory, "/", the project
   * key with every ':' turned into '-', and ".pdf".
   */
  function ReportPath(workingDir: string, effectiveKey: string): (path: string)
    ensures |path| == |workingDir| + 1 + |effectiveKey| + 4
    ensures path[..|workingDir|] == workingDir && path[|workingDir|] == '/'
    ensures path[|path| - 4..] == ".pdf"
    ensures forall i :: 0 <= i < |effectiveKey| ==>
              path[|workingDir| + 1 + i] == (if effectiveKey[i] == ':' then '-' else effectiveKey[i])
    ensures ':' !in path[|workingDir| + 1 .. |path| - 4]
  {
    var fileKey := Replace(effectiveKey, ':', '-');
    var path := workingDir + "/" + fileKey + ".pdf";
    assert path[|workingDir| + 1 .. |path| - 4] == fileKey;
    path
  }

  /**
   * Two keys lead to the same report file exactly when they agree once every
   * ':' is turned into '-' (so "a:b" and "a-b" share one file).
   */
  lemma ReportPathsCollide(workingDir: string, key1: string, key2: string)
    ensures ReportPath(workingDir, key1) == ReportPath(workingDir, key2)
            <==> Replace(key1, ':', '-') == Replace(key2, ':', '-')
  {
  }

  /**
   * The job's work once it has been admitted: start the generator with the
   * settings' values, then upload the report file to the server if it
   * exists, and only log an error if it does not. `pdfExists` is what the
   * file system says about the report path once the generator is done.
   */
  method ExecuteOn(settings: Option<Settings>, workingDir: string, effectiveKey: string,
                   pdfExists: bool)
    returns (run: Run)
    ensures run.SettingsMissing? <==> settings.None?
    ensures run.Ran? ==>
              run.generator == GeneratorRequest(settings.value.hostUrl, settings.value.username,
                                                settings.value.password, settings.value.branch,
                                                settings.value.reportType)
    ensures run.Ran? ==> run.delivery.file == ReportPath(workingDir, effectiveKey)
    ensures run.Ran? ==> (run.delivery.Uploaded? <==> pdfExists)
    ensures run.Ran? && run.delivery.Uploaded? ==>
              run.delivery.target == settings.value.hostUrl + UploadPath
  {
    if settings.None? {
      return SettingsMissing;
    }
    var sonarHostUrl := settings.value.hostUrl;
    var username := settings.value.username;
    var password := settings.value.password;
    var branch := settings.value.branch;
    var reportType := settings.value.reportType;
    var generator := GeneratorRequest(sonarHostUrl, username, password, branch, reportType);

    var path := ReportPath(workingDir, effectiveKey);
    var delivery;
    if pdfExists {
      delivery := Uploaded(path, sonarHostUrl + UploadPath);
    } else {
      delivery := NotFound(path);
    }
    run := Ran(generator, delivery);
  }
}
