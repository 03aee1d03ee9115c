/** The command-line client's `main` (src/client/index.ts) up to the
    submission: both paths must be given, then the job description and the CV
    are loaded into one form, in that order, stopping at the first failure.
    Its `validatePDF` and `loadPDFFile` are copies of those in
    src/cli/utils/file.ts and are modelled once, by `PdfFile`. */
module Client {
  import opened Wrappers
  import opened PdfFile
  import opened JsStrings
  import opened PosixPath

  const UsageText := "Usage: " + "yarn dev:client <path/to/job-description.pdf> <path/to/cv.pdf>\n"
    + "Please provide paths to both the job description and CV PDF files."

  /** How `main` ends before the network call: exiting with a code and the
      text written to standard error, or submitting the form's entries. */
  datatype ClientOutcome = Exit(code: int, stderr: string) | Submit(entries: seq<FormEntry>)

  /** A load failure never reads as the usage text. */
  lemma LoadErrorIsNotUsage(path: string, key: string, fs: FileSystem)
    requires LoadOutcome(path, key, fs).Fail?
    ensures LoadOutcome(path, key, fs).error != UsageText
  {
    LoadOutcomeCases(path, key, fs);
    var e := LoadOutcome(path, key, fs).error;
    assert UsageText[0] == 'U';
    if path !in fs {
      assert e == "File not found: " + path;
      assert e[0] == 'F';
    } else {
      var cause := if fs[path].Unreadable? then fs[path].message else NotPdfMessage(key);
      assert e == "Error reading " + key + " file: " + ErrorText(cause);
      assert e[0] == 'E';
    }
  }

  /** `main()` with `jdPath = process.argv[2]` and `cvPath = process.argv[3]`
      over the filesystem `fs`; `attempted` lists the paths whose load was
      started, in order. */
  method RunClient(jdPath: Option<string>, cvPath: Option<string>, fs: FileSystem)
    returns (outcome: ClientOutcome, attempted: seq<string>)
    ensures Falsy(jdPath) || Falsy(cvPath) <==> outcome == Exit(1, UsageText)
    ensures outcome == Exit(1, UsageText) ==> attempted == []
    ensures !(Falsy(jdPath) || Falsy(cvPath)) ==>
      && 1 <= |attempted| <= 2 && attempted[0] == jdPath.value
      && (|attempted| == 2 <==> LoadOutcome(jdPath.value, "jobDescription", fs).Pass?)
      && (|attempted| == 2 ==> attempted[1] == cvPath.value)
      && (LoadOutcome(jdPath.value, "jobDescription", fs).Fail? ==>
            outcome == Exit(1, LoadOutcome(jdPath.value, "jobDescription", fs).error))
      && (LoadOutcome(jdPath.value, "jobDescription", fs).Pass? && LoadOutcome(cvPath.value, "cv", fs).Fail? ==>
            outcome == Exit(1, LoadOutcome(cvPath.value, "cv", fs).error))
      && (outcome.Submit? <==>
            LoadOutcome(jdPath.value, "jobDescription", fs).Pass? && LoadOutcome(cvPath.value, "cv", fs).Pass?)
      && (outcome.Submit? ==>
            outcome.entries == [FormEntry("jobDescription", fs[jdPath.value].bytes, Basename(jdPath.value)),
                                FormEntry("cv", fs[cvPath.value].bytes, Basename(cvPath.value))])
  {
    if Falsy(jdPath) || Falsy(cvPath) {
      return Exit(1, UsageText), [];
    }
    var formData := new FormData();
    attempted := [jdPath.value];
    var loaded := LoadPdfFile(jdPath.value, "jobDescription", formData, fs);
    if loaded.Fail? {
      LoadErrorIsNotUsage(jdPath.value, "jobDescription", fs);
      return Exit(1, loaded.error), attempted;
    }
    SetAppendsWhenAbsent([], FormEntry("jobDescription", fs[jdPath.value].bytes, Basename(jdPath.value)));
    attempted := attempted + [cvPath.value];
    loaded := LoadPdfFile(cvPath.value, "cv", formData, fs);
    if loaded.Fail? {
      LoadErrorIsNotUsage(cvPath.value, "cv", fs);
      return Exit(1, loaded.error), attempted;
    }
    var first := FormEntry("jobDescription", fs[jdPath.value].bytes, Basename(jdPath.value));
    assert Named([first], "cv") == [] by {
      NamedOthersCons(first, [], "cv");
    }
    SetAppendsWhenAbsent([first], FormEntry("cv", fs[cvPath.value].bytes, Basename(cvPath.value)));
    outcome := Submit(formData.entries);
  }
}
