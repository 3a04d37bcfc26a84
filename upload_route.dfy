/**
 * The upload page's state and handlers: selecting a file, submitting the
 * form, and the analysis pipeline that uploads the resume, renders it to an
 * image, uploads the image, stores a record, asks the analyser and stores
 * the merged result before redirecting to the results page.
 */
module UploadRoute {
  import opened Wrappers
  import opened Records
  import opened Store
  import opened Pipeline

  class UploadPage {
    var isProcessing: bool
    var statusText: string
    /** The file chosen in the file picker. */
    var file: Option<FileRef>
    /** The external key-value store. */
    var kv: map<string, Record>
    var navigatedTo: Option<Navigation>
    /**
     * Every step the page has taken, in order: the busy flag being set, the
     * statuses shown, the calls made to the services, and the redirects.
     */
    var trace: seq<Event>

    /** The status showing is the last one shown, or none before any is. */
    ghost predicate Valid()
      reads this
    {
      statusText == LastStatus(trace)
    }

    constructor (store: map<string, Record>)
      ensures Valid()
      ensures !isProcessing && statusText == "" && file == None
      ensures kv == store && navigatedTo == None && trace == []
    {
      isProcessing := false;
      statusText := "";
      file := None;
      kv := store;
      navigatedTo := None;
      trace := [];
    }

    /** The file picker's callback: remembers the chosen file, or its removal. */
    method HandleFileSelect(f: Option<FileRef>)
      requires Valid()
      modifies this`file
      ensures Valid() && file == f
    {
      file := f;
    }

    /** Sets the busy flag. */
    method SetBusy()
      modifies this`isProcessing, this`trace
      ensures isProcessing && trace == old(trace) + [Busy]
    {
      isProcessing := true;
      trace := trace + [Busy];
    }

    /** Shows a status. */
    method SetStatusText(s: string)
      modifies this`statusText, this`trace
      ensures Valid()
      ensures statusText == s && trace == old(trace) + [Shown(s)]
    {
      statusText := s;
      trace := trace + [Shown(s)];
    }

    /** Makes a call to a service. */
    method Issue(c: Call)
      requires Valid()
      modifies this`trace
      ensures Valid()
      ensures trace == old(trace) + [Called(c)]
    {
      trace := trace + [Called(c)];
      assert trace[..|trace| - 1] == old(trace);
    }

    /** Shows the status of a step, then makes the step's call. */
    method Announce(s: string, c: Call)
      modifies this`statusText, this`trace
      ensures Valid()
      ensures statusText == s && trace == old(trace) + [Shown(s), Called(c)]
    {
      SetStatusText(s);
      Issue(c);
    }

    /** Writes a record to the store under a key. */
    method KvWrite(key: string, value: Record)
      requires Valid()
      modifies this`kv, this`trace
      ensures Valid()
      ensures kv == old(kv)[key := value] && trace == old(trace) + [Called(KvSet(key, value))]
    {
      Issue(KvSet(key, value));
      kv := kv[key := value];
    }

    /** Redirects the page. */
    method Navigate(nav: Navigation)
      requires Valid()
      modifies this`navigatedTo, this`trace
      ensures Valid()
      ensures navigatedTo == Some(nav) && trace == old(trace) + [Navigated(nav)]
    {
      navigatedTo := Some(nav);
      trace := trace + [Navigated(nav)];
      assert trace[..|trace| - 1] == old(trace);
    }

    /**
     * The first half of the pipeline: uploads the resume, renders it to an
     * image and uploads the image, showing each step's status before its
     * call; on the first failure shows its error status and answers false.
     */
    method PrepareFiles(doc: FileRef, env: Env) returns (ready: bool)
      modifies this`statusText, this`trace
      ensures Valid()
      ensures ready == Uploaded(env)
      ensures trace == old(trace) + UploadEvents(doc, env)
    {
      Announce(UploadingFile, Upload(doc));
      if env.documentUpload.None? {
        SetStatusText(UploadFileError);
        return false;
      }

      Announce(Converting, Convert(doc));
      if env.conversion.file.None? {
        var errorMsg := ErrorDetail(env.conversion.error);
        SetStatusText(ConversionErrorPrefix + errorMsg);
        return false;
      }
      var image := env.conversion.file.value;

      Announce(UploadingImage, Upload(image));
      if env.imageUpload.None? {
        SetStatusText(UploadImageError);
        return false;
      }
      return true;
    }

    /**
     * The second half of the pipeline, once both uploads have a path:
     * stores the first record, asks the analyser, and on a usable answer
     * stores the record with the parsed feedback and redirects to its page.
     */
    method StoreAndAnalyse(input: Submission, env: Env)
      requires Uploaded(env)
      modifies this`statusText, this`kv, this`navigatedTo, this`trace
      ensures Valid()
      ensures trace == old(trace) + AnalysisEvents(input, env)
      ensures kv == StoreAfter(old(kv), input, env)
      ensures navigatedTo ==
        if HaltOf(env).Completed? then Some(Navigation(ResultPath(env.uuid), true)) else old(navigatedTo)
    {
      var uploadedPath := env.documentUpload.value;
      var imagePath := env.imageUpload.value;

      var uuid := env.uuid;
      var data := Record(uuid, imagePath, uploadedPath,
                         input.companyName, input.jobTitle, input.jobDescription, Empty);
      SetStatusText(PreparingData);
      KvWrite(ResumeKey(uuid), data);

      var ask := AiFeedback(uploadedPath, Instructions(input.jobTitle, input.jobDescription));
      Announce(Analyzing, ask);
      if env.analysis.None? {
        SetStatusText(AnalyzeError);
        return;
      }

      var feedbackText := FeedbackText(env.analysis.value);
      if feedbackText.None? {
        // Reading the text of the first part of an empty list throws: the run stops here.
        return;
      }
      var parsed := env.parse(feedbackText.value);
      if parsed.None? {
        // The text is not JSON: parsing throws and the run stops here.
        return;
      }
      data := data.(feedback := Parsed(parsed.value));
      KvWrite(ResumeKey(uuid), data);
      SetStatusText(Complete);
      Navigate(Navigation(ResultPath(uuid), true));
    }

    /**
     * The analysis pipeline, run on the services' answers `env`. Each step
     * shows its status before its call; the first failure stops the run with
     * its status and nothing done before it is undone; the busy flag is set
     * and never cleared.
     */
    method HandleAnalyze(input: Submission, doc: FileRef, env: Env)
      modifies this`isProcessing, this`statusText, this`kv, this`navigatedTo, this`trace
      ensures Valid()
      ensures isProcessing
      ensures trace == old(trace) + RunEvents(input, doc, env)
      ensures Statuses(trace) == Statuses(old(trace)) + StatusTrail(HaltOf(env))
      ensures statusText == StatusTrail(HaltOf(env))[|StatusTrail(HaltOf(env))| - 1]
      ensures kv == StoreAfter(old(kv), input, env)
      ensures navigatedTo ==
        if HaltOf(env).Completed? then Some(Navigation(ResultPath(env.uuid), true)) else old(navigatedTo)
    {
      ghost var before := trace;
      SetBusy();
      var ready := PrepareFiles(doc, env);
      if ready {
        StoreAndAnalyse(input, env);
      }
      assert trace == before + RunEvents(input, doc, env) by {
        Regrouped(before, [Busy], UploadEvents(doc, env));
        if ready {
          Regrouped(before, [Busy] + UploadEvents(doc, env), AnalysisEvents(input, env));
        } else {
          assert [Busy] + UploadEvents(doc, env) + [] == [Busy] + UploadEvents(doc, env);
        }
      }
      RunStatuses(before, input, doc, env);
    }

    /**
     * The form's submit handler: without a form or a chosen file nothing
     * happens; otherwise the pipeline runs on the form's fields and the file.
     */
    method HandleSubmit(form: Option<Submission>, env: Env)
      requires Valid()
      modifies this`isProcessing, this`statusText, this`kv, this`navigatedTo, this`trace
      ensures Valid()
      ensures form.None? || file.None? ==>
        && isProcessing == old(isProcessing) && statusText == old(statusText)
        && kv == old(kv) && navigatedTo == old(navigatedTo) && trace == old(trace)
      ensures form.Some? && file.Some? ==>
        && isProcessing
        && trace == old(trace) + RunEvents(form.value, file.value, env)
        && Statuses(trace) == Statuses(old(trace)) + StatusTrail(HaltOf(env))
        && kv == StoreAfter(old(kv), form.value, env)
        && navigatedTo ==
             if HaltOf(env).Completed? then Some(Navigation(ResultPath(env.uuid), true)) else old(navigatedTo)
    {
      if form.None? {
        return;
      }
      if file.None? {
        return;
      }
      HandleAnalyze(form.value, file.value, env);
    }
  }

  const ScoreText := "{\"score\": 80}"
  const Score := JObject([("score", JNumber(80.0))])
  const AcmeInput := Submission("Acme", "Engineer", "Build things")
  const AcmeRecord := Record("u-1", "/files/resume.png", "/files/resume.pdf",
                             "Acme", "Engineer", "Build things", Parsed(Score))

  /** The services' answers of a run in which every step succeeds and the analysis text is {"score": 80}. */
  function AcmeEnv(): Env
  {
    Env(Some("/files/resume.pdf"), Conversion(Some(FileRef("resume.png")), None),
        Some("/files/resume.png"), "u-1", Some(Text(ScoreText)),
        text => if text == ScoreText then Some(Score) else None)
  }

  /** That run completes, leaves the merged record under `resume:u-1` and redirects to `/resume/u-1`. */
  lemma AcmeOutcome()
    ensures HaltOf(AcmeEnv()) == Completed(Score)
    ensures StoreAfter(map[], AcmeInput, AcmeEnv()) == map[ResumeKey("u-1") := AcmeRecord]
    ensures ResultPath(AcmeEnv().uuid) == "/resume/u-1"
  {
    assert AcmeEnv().parse(ScoreText) == Some(Score);
  }

  /**
   * A complete submission for "Acme", "Engineer", "Build things" whose
   * analysis text is {"score": 80}: the store holds the record with that
   * feedback parsed, the page has shown the five progress statuses and the
   * completion status, and it is sent to the record's results page.
   */
  method AcmeScenario() returns (stored: Option<Record>, shown: seq<string>, target: Option<Navigation>)
    ensures stored == Some(AcmeRecord)
    ensures shown == Progress + ["Analyzing complete, redirecting...."]
    ensures target == Some(Navigation("/resume/u-1", true))
  {
    var page := new UploadPage(map[]);
    page.HandleFileSelect(Some(FileRef("resume.pdf")));
    AcmeOutcome();
    page.HandleSubmit(Some(AcmeInput), AcmeEnv());
    var key := ResumeKey("u-1");
    stored := if key in page.kv then Some(page.kv[key]) else None;
    shown := Statuses(page.trace);
    target := page.navigatedTo;
  }
}
