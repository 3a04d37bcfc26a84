/**
 * What one run of the upload page's analysis pipeline does, as functions
 * of the services' answers: where it stops, the statuses it shows and the
 * calls it makes, with the properties of each kind of run as lemmas.
 */
module Pipeline {
  import opened Wrappers
  import opened Records
  import opened Store

  // The status texts the page shows, each exactly as the page writes it.
  const UploadingFile := "uploading the file...."
  const UploadFileError := "Error while uploading the file..."
  const Converting := "converting to image..."
  const ConversionErrorPrefix := "Error while converting to image: "
  const UnknownError := "Unknown error"
  const UploadingImage := "Uploading the image..."
  const UploadImageError := "Error while uploading the image"
  const PreparingData := "preparing Data...."
  const Analyzing := "Analyzing..."
  const AnalyzeError := "Error: Failed to Analyze Resume"
  const Complete := "Analyzing complete, redirecting...."

  /** The progress statuses of a run that reaches the analyser, in order. */
  const Progress: seq<string> := [UploadingFile, Converting, UploadingImage, PreparingData, Analyzing]

  const KeyPrefix := "resume:"
  const ResultPrefix := "/resume/"

  /** The store key of the record with identifier `id`. */
  function ResumeKey(id: string): string
  {
    KeyPrefix + id
  }

  /** The results page of the record with identifier `id`. */
  function ResultPath(id: string): string
  {
    ResultPrefix + id
  }

  /** Distinct identifiers address distinct store keys and distinct results pages. */
  lemma AddressingInjective(a: string, b: string)
    requires a != b
    ensures ResumeKey(a) != ResumeKey(b)
    ensures ResultPath(a) != ResultPath(b)
  {
    assert ResumeKey(a)[|KeyPrefix|..] == a;
    assert ResumeKey(b)[|KeyPrefix|..] == b;
    assert ResultPath(a)[|ResultPrefix|..] == a;
    assert ResultPath(b)[|ResultPrefix|..] == b;
  }

  /** `error || "Unknown error"`: an absent or empty description is falsy. */
  function ErrorDetail(error: Option<string>): (r: string)
    ensures r != ""
    ensures error.Some? && error.value != "" ==> r == error.value
    ensures error.None? || error.value == "" ==> r == UnknownError
  {
    if error.Some? && error.value != "" then error.value else UnknownError
  }

  /**
   * The feedback text of the analyser's message: a string as it is, otherwise
   * the text of the first part; None where indexing an empty list throws.
   */
  function FeedbackText(content: Content): (r: Option<string>)
    ensures r.Some? <==> (content.Text? || |content.parts| > 0)
    ensures content.Text? ==> r == Some(content.s)
  {
    match content
    case Text(s) => Some(s)
    case Parts(parts) => if |parts| > 0 then Some(parts[0].text) else None
  }

  /** The text is the same whichever of the two shapes carries it. */
  lemma FeedbackTextUniform(s: string, rest: seq<Part>)
    ensures FeedbackText(Text(s)) == FeedbackText(Parts([Part(s)] + rest)) == Some(s)
  {
  }

  /** A list of parts yields a text exactly when it is not empty. */
  lemma FeedbackTextDefined(content: Content)
    ensures FeedbackText(content).Some? <==> (content.Text? || |content.parts| > 0)
  {
  }

  /** Where a run stops. */
  datatype Halt =
    | UploadFailed
    | ConversionFailed(detail: string)
    | ImageUploadFailed
    | AnalysisFailed
    | Threw           // an exception escapes: no text in the response, or it is not JSON
    | Completed(feedback: Json)

  /** The stops that the page reports with an error status. */
  predicate IsFailure(h: Halt)
  {
    h.UploadFailed? || h.ConversionFailed? || h.ImageUploadFailed? || h.AnalysisFailed?
  }

  /** Where the run stops, given the services' answers, checked in the page's order. */
  function HaltOf(env: Env): Halt
  {
    if env.documentUpload.None? then UploadFailed
    else if env.conversion.file.None? then ConversionFailed(ErrorDetail(env.conversion.error))
    else if env.imageUpload.None? then ImageUploadFailed
    else if env.analysis.None? then AnalysisFailed
    else match FeedbackText(env.analysis.value)
      case None => Threw
      case Some(text) =>
        match env.parse(text)
        case None => Threw
        case Some(feedback) => Completed(feedback)
  }

  /** The statuses a run shows, in order, given where it stops. */
  function StatusTrail(h: Halt): seq<string>
  {
    match h
    case UploadFailed => [UploadingFile, UploadFileError]
    case ConversionFailed(detail) => [UploadingFile, Converting, ConversionErrorPrefix + detail]
    case ImageUploadFailed => [UploadingFile, Converting, UploadingImage, UploadImageError]
    case AnalysisFailed => Progress + [AnalyzeError]
    case Threw => Progress
    case Completed(_) => Progress + [Complete]
  }

  /** A status text that starts with "Error". */
  predicate IsErrorStatus(s: string)
  {
    |s| >= 5 && s[..5] == "Error"
  }

  /** No progress status reads as an error: none starts with 'E'. */
  lemma ProgressNotErrors(i: int)
    requires 0 <= i < |Progress|
    ensures !IsErrorStatus(Progress[i])
  {
    if i == 0 {
      assert UploadingFile[0] == 'u';
    } else if i == 1 {
      assert Converting[0] == 'c';
    } else if i == 2 {
      assert UploadingImage[0] == 'U';
    } else if i == 3 {
      assert PreparingData[0] == 'p';
    } else {
      assert Analyzing[0] == 'A';
    }
  }

  /** The error statuses read as errors; the completion status does not. */
  lemma ErrorStatuses(detail: string)
    ensures IsErrorStatus(UploadFileError) && IsErrorStatus(ConversionErrorPrefix + detail)
    ensures IsErrorStatus(UploadImageError) && IsErrorStatus(AnalyzeError)
    ensures !IsErrorStatus(Complete)
  {
    assert (ConversionErrorPrefix + detail)[..5] == ConversionErrorPrefix[..5];
    assert Complete[0] == 'A';
  }

  /**
   * Every run first shows "uploading the file....", shows the progress
   * statuses in order, and its last status reads as an error exactly when
   * the run stopped on a reported failure; no earlier status does.
   */
  lemma StatusTrailShape(h: Halt)
    ensures |StatusTrail(h)| >= 2 && StatusTrail(h)[0] == UploadingFile
    ensures forall i :: 0 <= i < |StatusTrail(h)| - 1 ==>
              StatusTrail(h)[i] == Progress[i] && !IsErrorStatus(StatusTrail(h)[i])
    ensures IsErrorStatus(StatusTrail(h)[|StatusTrail(h)| - 1]) <==> IsFailure(h)
  {
    var t := StatusTrail(h);
    var n := |t| - 1;
    match h {
    case UploadFailed =>
      ErrorStatuses("");
      assert t[..n] == Progress[..1];
    case ConversionFailed(detail) =>
      ErrorStatuses(detail);
      assert t[..n] == Progress[..2];
    case ImageUploadFailed =>
      ErrorStatuses("");
      assert t[..n] == Progress[..3];
    case AnalysisFailed =>
      ErrorStatuses("");
      assert t[..n] == Progress;
    case Threw =>
      ProgressNotErrors(4);
      assert t[..n] == Progress[..4];
    case Completed(_) =>
      ErrorStatuses("");
      assert t[..n] == Progress;
    }
    forall i | 0 <= i < n
      ensures t[i] == Progress[i] && !IsErrorStatus(t[i])
    {
      assert t[i] == t[..n][i];
      ProgressNotErrors(i);
    }
  }

  /** The first version of the record, once both uploads have a path. */
  function Draft(input: Submission, env: Env): Record
    requires env.documentUpload.Some? && env.imageUpload.Some?
  {
    Record(env.uuid, env.imageUpload.value, env.documentUpload.value,
           input.companyName, input.jobTitle, input.jobDescription, Empty)
  }

  /** Both uploads and the conversion succeeded, so the run goes on to the store. */
  predicate Uploaded(env: Env)
  {
    env.documentUpload.Some? && env.conversion.file.Some? && env.imageUpload.Some?
  }

  /** The calls made while the resume is uploaded, rendered and its image uploaded. */
  function UploadCalls(doc: FileRef, env: Env): seq<Call>
  {
    if env.documentUpload.None? then [Upload(doc)]
    else if env.conversion.file.None? then [Upload(doc), Convert(doc)]
    else [Upload(doc), Convert(doc), Upload(env.conversion.file.value)]
  }

  /** The calls made once both uploads have a path: store, analyse, and store the merge. */
  function AnalysisCalls(input: Submission, env: Env): seq<Call>
    requires Uploaded(env)
  {
    var key := ResumeKey(env.uuid);
    var draft := Draft(input, env);
    var analysed := [KvSet(key, draft),
      AiFeedback(env.documentUpload.value, Instructions(input.jobTitle, input.jobDescription))];
    match HaltOf(env)
    case Completed(feedback) => analysed + [KvSet(key, draft.(feedback := Parsed(feedback)))]
    case _ => analysed
  }

  /** The calls a run makes to the services, in order. */
  function CallTrail(input: Submission, doc: FileRef, env: Env): seq<Call>
  {
    UploadCalls(doc, env) + (if Uploaded(env) then AnalysisCalls(input, env) else [])
  }

  /** A step that shows its status and then makes its call, followed by the rest of the run. */
  function AnnouncedStep(status: string, call: Call, rest: seq<Event>): seq<Event>
  {
    [Shown(status), Called(call)] + rest
  }

  /** Joining lists does not depend on how they are grouped. */
  lemma Regrouped<T>(a: seq<T>, b: seq<T>, c: seq<T>)
    ensures a + b + c == a + (b + c)
  {
  }

  /** Short lists written element by element. */
  lemma Listed3<T>(a: T, b: T, c: T)
    ensures [a] + ([b] + [c]) == [a, b, c]
  {
  }

  lemma Listed4<T>(a: T, b: T, c: T, d: T)
    ensures [a] + ([b] + ([c] + [d])) == [a, b, c, d]
  {
  }

  /** The steps taken while the resume is uploaded, rendered and its image uploaded. */
  function UploadEvents(doc: FileRef, env: Env): seq<Event>
  {
    AnnouncedStep(UploadingFile, Upload(doc),
      if env.documentUpload.None? then [Shown(UploadFileError)]
      else AnnouncedStep(Converting, Convert(doc),
        if env.conversion.file.None? then [Shown(ConversionErrorPrefix + ErrorDetail(env.conversion.error))]
        else AnnouncedStep(UploadingImage, Upload(env.conversion.file.value),
          if env.imageUpload.None? then [Shown(UploadImageError)] else [])))
  }

  /** The steps after the analyser call, by where the run stops. */
  function AnalysisTail(input: Submission, env: Env): seq<Event>
    requires Uploaded(env)
  {
    match HaltOf(env)
    case AnalysisFailed => [Shown(AnalyzeError)]
    case Completed(feedback) =>
      [Called(KvSet(ResumeKey(env.uuid), Draft(input, env).(feedback := Parsed(feedback)))), Shown(Complete),
       Navigated(Navigation(ResultPath(env.uuid), true))]
    case _ => []
  }

  /** The steps taken once both uploads have a path. */
  function AnalysisEvents(input: Submission, env: Env): seq<Event>
    requires Uploaded(env)
  {
    AnnouncedStep(PreparingData, KvSet(ResumeKey(env.uuid), Draft(input, env)),
      AnnouncedStep(Analyzing, AiFeedback(env.documentUpload.value, Instructions(input.jobTitle, input.jobDescription)),
        AnalysisTail(input, env)))
  }

  /** Every step of a run, in order: the busy flag first. */
  function RunEvents(input: Submission, doc: FileRef, env: Env): seq<Event>
  {
    [Busy] + UploadEvents(doc, env) + (if Uploaded(env) then AnalysisEvents(input, env) else [])
  }

  /** The statuses among the steps, in order. */
  function Statuses(t: seq<Event>): seq<string>
    decreases |t|
  {
    if t == [] then [] else (if t[0].Shown? then [t[0].status] else []) + Statuses(t[1..])
  }

  /** The calls among the steps, in order. */
  function CallsOf(t: seq<Event>): seq<Call>
    decreases |t|
  {
    if t == [] then [] else (if t[0].Called? then [t[0].call] else []) + CallsOf(t[1..])
  }

  lemma {:induction false} StatusesAppend(a: seq<Event>, b: seq<Event>)
    ensures Statuses(a + b) == Statuses(a) + Statuses(b)
    ensures CallsOf(a + b) == CallsOf(a) + CallsOf(b)
    decreases |a|
  {
    if a == [] {
      assert a + b == b;
    } else {
      var ab := a + b;
      assert ab[0] == a[0] && ab[1..] == a[1..] + b;
      StatusesAppend(a[1..], b);
      Regrouped(if a[0].Shown? then [a[0].status] else [], Statuses(a[1..]), Statuses(b));
      Regrouped(if a[0].Called? then [a[0].call] else [], CallsOf(a[1..]), CallsOf(b));
    }
  }

  /** The status showing after the steps: the last one shown, or none. */
  function LastStatus(t: seq<Event>): string
    decreases |t|
  {
    if t == [] then "" else if t[|t| - 1].Shown? then t[|t| - 1].status else LastStatus(t[..|t| - 1])
  }

  /** The status showing is the last of the statuses among the steps. */
  lemma {:induction false} LastStatusIsLast(t: seq<Event>)
    ensures LastStatus(t) == if Statuses(t) == [] then "" else Statuses(t)[|Statuses(t)| - 1]
    decreases |t|
  {
    if t != [] {
      var init := t[..|t| - 1];
      assert t == init + [t[|t| - 1]];
      StatusesAppend(init, [t[|t| - 1]]);
      StatusesOfOne(t[|t| - 1]);
      LastStatusIsLast(init);
    }
  }

  /** The status or call of a single step. */
  lemma StatusesOfOne(e: Event)
    ensures Statuses([e]) == if e.Shown? then [e.status] else []
    ensures CallsOf([e]) == if e.Called? then [e.call] else []
  {
    assert [e][1..] == [];
  }

  /** The statuses and calls of one or two steps. */
  lemma StatusesOfPair(e: Event, f: Event)
    ensures Statuses([e]) == (if e.Shown? then [e.status] else [])
    ensures CallsOf([e]) == (if e.Called? then [e.call] else [])
    ensures Statuses([e, f]) == Statuses([e]) + Statuses([f])
    ensures CallsOf([e, f]) == CallsOf([e]) + CallsOf([f])
  {
    assert [e][1..] == [];
    StatusesAppend([e], [f]);
    assert [e] + [f] == [e, f];
  }

  /** A step's status and call come first among the statuses and calls. */
  lemma AnnounceProject(s: string, c: Call, rest: seq<Event>)
    ensures Statuses(AnnouncedStep(s, c, rest)) == [s] + Statuses(rest)
    ensures CallsOf(AnnouncedStep(s, c, rest)) == [c] + CallsOf(rest)
  {
    StatusesOfPair(Shown(s), Called(c));
    StatusesAppend([Shown(s), Called(c)], rest);
  }

  /** A falsy resume upload: one step, then its error status. */
  lemma UploadFailedEvents(doc: FileRef, env: Env)
    requires env.documentUpload.None?
    ensures Statuses(UploadEvents(doc, env)) == StatusTrail(HaltOf(env))
    ensures CallsOf(UploadEvents(doc, env)) == UploadCalls(doc, env)
  {
    StatusesOfOne(Shown(UploadFileError));
    AnnounceProject(UploadingFile, Upload(doc), [Shown(UploadFileError)]);
  }

  /** A render without a file: two steps, then its error status. */
  lemma ConversionFailedEvents(doc: FileRef, env: Env)
    requires env.documentUpload.Some? && env.conversion.file.None?
    ensures Statuses(UploadEvents(doc, env)) == StatusTrail(HaltOf(env))
    ensures CallsOf(UploadEvents(doc, env)) == UploadCalls(doc, env)
  {
    var e := Shown(ConversionErrorPrefix + ErrorDetail(env.conversion.error));
    var l2 := AnnouncedStep(Converting, Convert(doc), [e]);
    StatusesOfOne(e);
    AnnounceProject(Converting, Convert(doc), [e]);
    AnnounceProject(UploadingFile, Upload(doc), l2);
    assert UploadEvents(doc, env) == AnnouncedStep(UploadingFile, Upload(doc), l2);
    assert HaltOf(env) == ConversionFailed(ErrorDetail(env.conversion.error));
    Listed3(UploadingFile, Converting, e.status);
  }

  /** A falsy image upload: three steps, then its error status. */
  lemma ImageUploadFailedEvents(doc: FileRef, env: Env)
    requires env.documentUpload.Some? && env.conversion.file.Some? && env.imageUpload.None?
    ensures Statuses(UploadEvents(doc, env)) == StatusTrail(HaltOf(env))
    ensures CallsOf(UploadEvents(doc, env)) == UploadCalls(doc, env)
  {
    var image := Upload(env.conversion.file.value);
    var last := [Shown(UploadImageError)];
    var l3 := AnnouncedStep(UploadingImage, image, last);
    var l2 := AnnouncedStep(Converting, Convert(doc), l3);
    assert UploadEvents(doc, env) == AnnouncedStep(UploadingFile, Upload(doc), l2);
    assert HaltOf(env) == ImageUploadFailed;
    StatusesOfOne(last[0]);
    AnnounceProject(UploadingImage, image, last);
    AnnounceProject(Converting, Convert(doc), l3);
    AnnounceProject(UploadingFile, Upload(doc), l2);
    Listed4(UploadingFile, Converting, UploadingImage, UploadImageError);
    Listed3(Upload(doc), Convert(doc), image);
  }

  /** Both uploads succeed: three steps and no error status. */
  lemma UploadedEvents(doc: FileRef, env: Env)
    requires Uploaded(env)
    ensures Statuses(UploadEvents(doc, env)) == [UploadingFile, Converting, UploadingImage]
    ensures CallsOf(UploadEvents(doc, env)) == UploadCalls(doc, env)
  {
    var image := Upload(env.conversion.file.value);
    var last: seq<Event> := [];
    var l3 := AnnouncedStep(UploadingImage, image, last);
    var l2 := AnnouncedStep(Converting, Convert(doc), l3);
    assert Statuses(last) == [] && CallsOf(last) == [];
    AnnounceProject(UploadingImage, image, last);
    AnnounceProject(Converting, Convert(doc), l3);
    AnnounceProject(UploadingFile, Upload(doc), l2);
    assert UploadEvents(doc, env) == AnnouncedStep(UploadingFile, Upload(doc), l2);
    Listed3(UploadingFile, Converting, UploadingImage);
    Listed3(Upload(doc), Convert(doc), image);
  }

  /** The first half's statuses and calls are those of the run up to the image upload. */
  lemma UploadEventsProject(doc: FileRef, env: Env)
    ensures Statuses(UploadEvents(doc, env)) ==
      if Uploaded(env) then [UploadingFile, Converting, UploadingImage] else StatusTrail(HaltOf(env))
    ensures CallsOf(UploadEvents(doc, env)) == UploadCalls(doc, env)
  {
    if env.documentUpload.None? {
      UploadFailedEvents(doc, env);
    } else if env.conversion.file.None? {
      ConversionFailedEvents(doc, env);
    } else if env.imageUpload.None? {
      ImageUploadFailedEvents(doc, env);
    } else {
      UploadedEvents(doc, env);
    }
  }

  /** The statuses and calls after the analyser call. */
  lemma AnalysisTailProject(input: Submission, env: Env)
    requires Uploaded(env)
    ensures StatusTrail(HaltOf(env)) == Progress + Statuses(AnalysisTail(input, env))
    ensures AnalysisCalls(input, env) ==
      [KvSet(ResumeKey(env.uuid), Draft(input, env)),
       AiFeedback(env.documentUpload.value, Instructions(input.jobTitle, input.jobDescription))]
      + CallsOf(AnalysisTail(input, env))
  {
    match HaltOf(env)
    case AnalysisFailed =>
      StatusesOfOne(Shown(AnalyzeError));
    case Completed(_) =>
      CompletedTail(input, env);
    case _ =>
  }

  /** A completed run's last steps: the merged write, the completion status, the redirect. */
  lemma CompletedTail(input: Submission, env: Env)
    requires Uploaded(env) && HaltOf(env).Completed?
    ensures Statuses(AnalysisTail(input, env)) == [Complete]
    ensures CallsOf(AnalysisTail(input, env)) ==
      [KvSet(ResumeKey(env.uuid), Draft(input, env).(feedback := Parsed(HaltOf(env).feedback)))]
  {
    var write := Called(KvSet(ResumeKey(env.uuid), Draft(input, env).(feedback := Parsed(HaltOf(env).feedback))));
    var done := Navigated(Navigation(ResultPath(env.uuid), true));
    StatusesOfPair(write, Shown(Complete));
    StatusesOfOne(done);
    StatusesAppend([write, Shown(Complete)], [done]);
    assert AnalysisTail(input, env) == [write, Shown(Complete)] + [done];
  }

  /** The second half's statuses and calls are those of the run after the image upload. */
  lemma AnalysisEventsProject(input: Submission, env: Env)
    requires Uploaded(env)
    ensures Statuses(AnalysisEvents(input, env)) == StatusTrail(HaltOf(env))[3..]
    ensures CallsOf(AnalysisEvents(input, env)) == AnalysisCalls(input, env)
  {
    var key := ResumeKey(env.uuid);
    var ask := AiFeedback(env.documentUpload.value, Instructions(input.jobTitle, input.jobDescription));
    var tail := AnalysisTail(input, env);
    AnalysisTailProject(input, env);
    AnnounceProject(Analyzing, ask, tail);
    AnnounceProject(PreparingData, KvSet(key, Draft(input, env)), AnnouncedStep(Analyzing, ask, tail));
    var rest := Statuses(tail);
    assert (Progress + rest)[3..] == [PreparingData, Analyzing] + rest;
  }

  /**
   * The statuses among a run's steps are the statuses it shows, and the
   * calls among them are the calls it makes.
   */
  lemma RunEventsProject(input: Submission, doc: FileRef, env: Env)
    ensures Statuses(RunEvents(input, doc, env)) == StatusTrail(HaltOf(env))
    ensures CallsOf(RunEvents(input, doc, env)) == CallTrail(input, doc, env)
  {
    var up := UploadEvents(doc, env);
    UploadEventsProject(doc, env);
    StatusesOfOne(Busy);
    StatusesAppend([Busy], up);
    if Uploaded(env) {
      var rest := AnalysisEvents(input, env);
      assert RunEvents(input, doc, env) == [Busy] + up + rest;
      AnalysisEventsProject(input, env);
      StatusesAppend([Busy] + up, rest);
      var t := StatusTrail(HaltOf(env));
      assert t == [UploadingFile, Converting, UploadingImage] + t[3..];
    } else {
      assert RunEvents(input, doc, env) == [Busy] + up;
    }
  }

  /**
   * After a run, the statuses shown are the ones shown before followed by
   * the run's, and the status left showing is the run's last one.
   */
  lemma RunStatuses(t: seq<Event>, input: Submission, doc: FileRef, env: Env)
    ensures Statuses(t + RunEvents(input, doc, env)) == Statuses(t) + StatusTrail(HaltOf(env))
    ensures LastStatus(t + RunEvents(input, doc, env)) == StatusTrail(HaltOf(env))[|StatusTrail(HaltOf(env))| - 1]
  {
    RunEventsProject(input, doc, env);
    StatusesAppend(t, RunEvents(input, doc, env));
    LastStatusIsLast(t + RunEvents(input, doc, env));
  }

  /**
   * The call at `i` comes right after the status of its step, or, for the
   * write of the merged record, right after the analyser call.
   */
  predicate Announced(t: seq<Event>, i: int)
    requires 0 <= i < |t| && t[i].Called?
  {
    0 < i &&
    ((t[i - 1].Shown? && t[i - 1].status in Progress) ||
     (t[i].call.KvSet? && t[i - 1].Called? && t[i - 1].call.AiFeedback?))
  }

  /** Every call among the steps is announced. */
  predicate CallsAnnounced(t: seq<Event>)
  {
    forall i :: 0 <= i < |t| && t[i].Called? ==> Announced(t, i)
  }

  /** Steps that only show statuses and make calls. */
  predicate PlainSteps(t: seq<Event>)
  {
    forall i :: 0 <= i < |t| ==> t[i].Shown? || t[i].Called?
  }

  lemma CallsAnnouncedAppend(a: seq<Event>, b: seq<Event>)
    requires CallsAnnounced(a) && CallsAnnounced(b)
    ensures CallsAnnounced(a + b)
  {
    forall i | 0 <= i < |a + b| && (a + b)[i].Called?
      ensures Announced(a + b, i)
    {
      if i < |a| {
        assert (a + b)[i] == a[i];
        assert Announced(a, i);
        assert (a + b)[i - 1] == a[i - 1];
      } else {
        assert (a + b)[i] == b[i - |a|];
        assert Announced(b, i - |a|);
        assert (a + b)[i - 1] == b[i - |a| - 1];
      }
    }
  }

  /** A step announced by a progress status keeps the calls announced. */
  lemma AnnounceOrdered(s: string, c: Call, rest: seq<Event>)
    requires s in Progress && CallsAnnounced(rest)
    ensures CallsAnnounced(AnnouncedStep(s, c, rest))
    ensures PlainSteps(rest) ==> PlainSteps(AnnouncedStep(s, c, rest))
  {
    var step := [Shown(s), Called(c)];
    assert Announced(step, 1);
    CallsAnnouncedAppend(step, rest);
    if PlainSteps(rest) {
      forall i | 0 <= i < |step + rest|
        ensures (step + rest)[i].Shown? || (step + rest)[i].Called?
      {
        if i >= 2 {
          assert (step + rest)[i] == rest[i - 2];
        }
      }
    }
  }

  /** In the first half every call follows its status, and nothing but statuses and calls occurs. */
  lemma UploadEventsOrder(doc: FileRef, env: Env)
    ensures CallsAnnounced(UploadEvents(doc, env)) && PlainSteps(UploadEvents(doc, env))
  {
    var imaging: seq<Event> := if env.imageUpload.None? then [Shown(UploadImageError)] else [];
    var converting: seq<Event> := if env.conversion.file.None?
      then [Shown(ConversionErrorPrefix + ErrorDetail(env.conversion.error))]
      else AnnouncedStep(UploadingImage, Upload(env.conversion.file.value), imaging);
    if env.conversion.file.Some? {
      AnnounceOrdered(UploadingImage, Upload(env.conversion.file.value), imaging);
    }
    var uploading: seq<Event> := if env.documentUpload.None? then [Shown(UploadFileError)]
      else AnnouncedStep(Converting, Convert(doc), converting);
    if env.documentUpload.Some? {
      AnnounceOrdered(Converting, Convert(doc), converting);
    }
    AnnounceOrdered(UploadingFile, Upload(doc), uploading);
  }

  /**
   * In the second half every call follows its status, or the analyser call
   * for the merged write; the redirect happens only on completion, last,
   * right after the completion status.
   */
  lemma AnalysisEventsOrder(input: Submission, env: Env)
    requires Uploaded(env)
    ensures CallsAnnounced(AnalysisEvents(input, env))
    ensures Busy !in AnalysisEvents(input, env)
    ensures var t := AnalysisEvents(input, env);
      forall i :: 0 <= i < |t| && t[i].Navigated? ==>
        i == |t| - 1 && HaltOf(env).Completed? && t[i - 1] == Shown(Complete)
    ensures var t := AnalysisEvents(input, env);
      HaltOf(env).Completed? ==> t[|t| - 1] == Navigated(Navigation(ResultPath(env.uuid), true))
  {
    var ask := AiFeedback(env.documentUpload.value, Instructions(input.jobTitle, input.jobDescription));
    var asking := AnnouncedStep(Analyzing, ask, AnalysisTail(input, env));
    var t := AnalysisEvents(input, env);
    assert Announced(asking, 1);
    if HaltOf(env).Completed? {
      assert Announced(asking, 2);
    }
    assert CallsAnnounced(asking);
    AnnounceOrdered(PreparingData, KvSet(ResumeKey(env.uuid), Draft(input, env)), asking);
  }

  /** Behind the busy flag, plain steps followed by steps plain up to the last stay plain. */
  lemma InteriorPlain(t: seq<Event>, up: seq<Event>, rest: seq<Event>)
    requires t == [Busy] + up + rest
    requires up != [] && PlainSteps(up)
    requires forall j :: 0 <= j < |rest| - 1 ==> rest[j].Shown? || rest[j].Called?
    ensures PlainSteps(t[1..|t| - 1])
  {
    var u := t[1..|t| - 1];
    forall i | 0 <= i < |u|
      ensures u[i].Shown? || u[i].Called?
    {
      if i < |up| {
        assert u[i] == up[i];
      } else {
        assert u[i] == rest[i - |up|];
      }
    }
  }

  /**
   * A run sets the busy flag before anything else and only then; each call
   * follows the status of its step (the merged write follows the analyser
   * call); between the busy flag and the last step only statuses are shown
   * and calls made; the redirect happens only on completion, as the last
   * step and right after the completion status.
   */
  lemma RunEventsOrder(input: Submission, doc: FileRef, env: Env)
    ensures var t := RunEvents(input, doc, env);
      && t[0] == Busy && Busy !in t[1..]
      && CallsAnnounced(t)
      && PlainSteps(t[1..|t| - 1])
      && (forall i :: 0 <= i < |t| && t[i].Navigated? ==>
            i == |t| - 1 && HaltOf(env).Completed? && t[i - 1] == Shown(Complete))
      && (HaltOf(env).Completed? ==> t[|t| - 1] == Navigated(Navigation(ResultPath(env.uuid), true)))
  {
    var up := UploadEvents(doc, env);
    var rest := if Uploaded(env) then AnalysisEvents(input, env) else [];
    UploadEventsOrder(doc, env);
    if Uploaded(env) {
      AnalysisEventsOrder(input, env);
    }
    assert CallsAnnounced([Busy]);
    CallsAnnouncedAppend([Busy], up);
    CallsAnnouncedAppend([Busy] + up, rest);
    var t := RunEvents(input, doc, env);
    assert t == [Busy] + up + rest;
    assert t[1..] == up + rest;
    forall i | 0 <= i < |t| && t[i].Navigated?
      ensures i == |t| - 1 && HaltOf(env).Completed? && t[i - 1] == Shown(Complete)
    {
      assert i > |up|;
      assert t[i] == rest[i - 1 - |up|];
      assert t[i - 1] == rest[i - 2 - |up|];
    }
    forall j | 0 <= j < |rest| - 1
      ensures rest[j].Shown? || rest[j].Called?
    {
      assert rest[j] != Busy;
    }
    InteriorPlain(t, up, rest);
  }

  /**
   * From position `at` on, the steps come in pairs: the `k`-th shows
   * `statuses[k]` and then, right after it, makes `calls[k]`.
   */
  predicate StepsAt(t: seq<Event>, at: nat, statuses: seq<string>, calls: seq<Call>)
  {
    && |statuses| == |calls| && at + 2 * |calls| <= |t|
    && forall k :: 0 <= k < |calls| ==>
         t[at + 2 * k] == Shown(statuses[k]) && t[at + 2 * k + 1] == Called(calls[k])
  }

  /** A step put in front of paired steps is one more pair. */
  lemma StepsAnnounce(s: string, c: Call, rest: seq<Event>, statuses: seq<string>, calls: seq<Call>)
    requires StepsAt(rest, 0, statuses, calls)
    ensures StepsAt(AnnouncedStep(s, c, rest), 0, [s] + statuses, [c] + calls)
  {
    var t := AnnouncedStep(s, c, rest);
    forall k | 0 <= k < |calls| + 1
      ensures t[2 * k] == Shown(([s] + statuses)[k]) && t[2 * k + 1] == Called(([c] + calls)[k])
    {
      if k > 0 {
        assert t[2 * k] == rest[2 * (k - 1)] && t[2 * k + 1] == rest[2 * (k - 1) + 1];
      }
    }
  }

  /** Paired steps stay paired, shifted, inside a longer list of steps. */
  lemma StepsShift(p: seq<Event>, u: seq<Event>, w: seq<Event>, statuses: seq<string>, calls: seq<Call>)
    requires StepsAt(u, 0, statuses, calls)
    ensures StepsAt(p + u + w, |p|, statuses, calls)
  {
    var t := p + u + w;
    forall k | 0 <= k < |calls|
      ensures t[|p| + 2 * k] == Shown(statuses[k]) && t[|p| + 2 * k + 1] == Called(calls[k])
    {
      assert t[|p| + 2 * k] == u[2 * k] && t[|p| + 2 * k + 1] == u[2 * k + 1];
    }
  }

  /** Two runs of paired steps, the second right after the first, are one. */
  lemma StepsJoin(t: seq<Event>, at: nat, s1: seq<string>, c1: seq<Call>, s2: seq<string>, c2: seq<Call>)
    requires StepsAt(t, at, s1, c1) && StepsAt(t, at + 2 * |c1|, s2, c2)
    ensures StepsAt(t, at, s1 + s2, c1 + c2)
  {
    forall k | 0 <= k < |c1| + |c2|
      ensures t[at + 2 * k] == Shown((s1 + s2)[k]) && t[at + 2 * k + 1] == Called((c1 + c2)[k])
    {
      if k >= |c1| {
        var j := k - |c1|;
        assert at + 2 * k == at + 2 * |c1| + 2 * j;
        assert (s1 + s2)[k] == s2[j] && (c1 + c2)[k] == c2[j];
      }
    }
  }

  /** In the first half, the `k`-th call comes right after the `k`-th progress status. */
  lemma UploadEventsSteps(doc: FileRef, env: Env)
    ensures |UploadCalls(doc, env)| <= 3
    ensures Uploaded(env) ==> |UploadCalls(doc, env)| == 3 && |UploadEvents(doc, env)| == 6
    ensures StepsAt(UploadEvents(doc, env), 0, Progress[..|UploadCalls(doc, env)|], UploadCalls(doc, env))
  {
    var none: seq<string> := [];
    var noCalls: seq<Call> := [];
    if env.documentUpload.None? {
      var last := [Shown(UploadFileError)];
      assert StepsAt(last, 0, none, noCalls);
      StepsAnnounce(UploadingFile, Upload(doc), last, none, noCalls);
      assert Progress[..1] == [UploadingFile] + none;
    } else if env.conversion.file.None? {
      var last := [Shown(ConversionErrorPrefix + ErrorDetail(env.conversion.error))];
      assert StepsAt(last, 0, none, noCalls);
      StepsAnnounce(Converting, Convert(doc), last, none, noCalls);
      StepsAnnounce(UploadingFile, Upload(doc), AnnouncedStep(Converting, Convert(doc), last), [Converting], [Convert(doc)]);
      assert Progress[..2] == [UploadingFile, Converting];
    } else {
      var image := Upload(env.conversion.file.value);
      var last: seq<Event> := if env.imageUpload.None? then [Shown(UploadImageError)] else [];
      var l3 := AnnouncedStep(UploadingImage, image, last);
      var l2 := AnnouncedStep(Converting, Convert(doc), l3);
      assert StepsAt(last, 0, none, noCalls);
      StepsAnnounce(UploadingImage, image, last, none, noCalls);
      StepsAnnounce(Converting, Convert(doc), l3, [UploadingImage], [image]);
      StepsAnnounce(UploadingFile, Upload(doc), l2, [Converting, UploadingImage], [Convert(doc), image]);
      assert UploadEvents(doc, env) == AnnouncedStep(UploadingFile, Upload(doc), l2);
      assert Progress[..3] == [UploadingFile, Converting, UploadingImage];
    }
  }

  /** In the second half, the store write and the analyser call come right after their statuses. */
  lemma AnalysisEventsSteps(input: Submission, env: Env)
    requires Uploaded(env)
    ensures StepsAt(AnalysisEvents(input, env), 0, [PreparingData, Analyzing], AnalysisCalls(input, env)[..2])
  {
    var ask := AiFeedback(env.documentUpload.value, Instructions(input.jobTitle, input.jobDescription));
    var tail := AnalysisTail(input, env);
    assert StepsAt(tail, 0, [], []);
    StepsAnnounce(Analyzing, ask, tail, [], []);
    StepsAnnounce(PreparingData, KvSet(ResumeKey(env.uuid), Draft(input, env)), AnnouncedStep(Analyzing, ask, tail),
      [Analyzing], [ask]);
    assert AnalysisCalls(input, env)[..2] == [KvSet(ResumeKey(env.uuid), Draft(input, env)), ask];
  }

  /** Two runs of paired steps, the first with no trailing step, joined after the busy flag. */
  lemma StepsAfterBusy(a: seq<Event>, b: seq<Event>, s1: seq<string>, c1: seq<Call>, s2: seq<string>, c2: seq<Call>)
    requires |a| == 2 * |c1| && StepsAt(a, 0, s1, c1) && StepsAt(b, 0, s2, c2)
    ensures StepsAt([Busy] + a + b, 1, s1 + s2, c1 + c2)
  {
    StepsShift([Busy], a, b, s1, c1);
    StepsShift([Busy] + a, b, [], s2, c2);
    assert [Busy] + a + b + [] == [Busy] + a + b;
    StepsJoin([Busy] + a + b, 1, s1, c1, s2, c2);
  }

  /** A run whose uploads succeed: five announced steps after the busy flag. */
  lemma UploadedRunSteps(input: Submission, doc: FileRef, env: Env)
    requires Uploaded(env)
    ensures |CallTrail(input, doc, env)| >= 5
    ensures StepsAt(RunEvents(input, doc, env), 1, Progress, CallTrail(input, doc, env)[..5])
  {
    var up := UploadEvents(doc, env);
    var ups := UploadCalls(doc, env);
    var rest := AnalysisEvents(input, env);
    var an := AnalysisCalls(input, env);
    UploadEventsSteps(doc, env);
    AnalysisEventsSteps(input, env);
    StepsAfterBusy(up, rest, Progress[..3], ups, [PreparingData, Analyzing], an[..2]);
    assert RunEvents(input, doc, env) == [Busy] + up + rest;
    assert Progress[..3] + [PreparingData, Analyzing] == Progress;
    assert ups + an[..2] == CallTrail(input, doc, env)[..5];
  }

  /** A run stopped in the first half: every call is announced, after the busy flag. */
  lemma UnuploadedRunSteps(input: Submission, doc: FileRef, env: Env)
    requires !Uploaded(env)
    ensures |CallTrail(input, doc, env)| <= 3
    ensures StepsAt(RunEvents(input, doc, env), 1, Progress[..|CallTrail(input, doc, env)|], CallTrail(input, doc, env))
  {
    var up := UploadEvents(doc, env);
    var ups := UploadCalls(doc, env);
    assert RunEvents(input, doc, env) == [Busy] + up + [];
    assert CallTrail(input, doc, env) == ups;
    UploadEventsSteps(doc, env);
    StepsShift([Busy], up, [], Progress[..|ups|], ups);
  }

  /**
   * After the busy flag, a run's steps come in pairs: the `k`-th shows the
   * `k`-th progress status and right after it makes the `k`-th call. This
   * holds for every call except the merged write of a completed run.
   */
  lemma RunEventsSteps(input: Submission, doc: FileRef, env: Env)
    ensures var n := if HaltOf(env).Completed? then |CallTrail(input, doc, env)| - 1 else |CallTrail(input, doc, env)|;
      0 <= n <= |CallTrail(input, doc, env)| && n <= |Progress| &&
      StepsAt(RunEvents(input, doc, env), 1, Progress[..n], CallTrail(input, doc, env)[..n])
  {
    if Uploaded(env) {
      UploadedRunSteps(input, doc, env);
      var calls := CallTrail(input, doc, env);
      assert |calls| == if HaltOf(env).Completed? then 6 else 5;
      assert Progress[..5] == Progress;
    } else {
      UnuploadedRunSteps(input, doc, env);
      assert CallTrail(input, doc, env)[..|CallTrail(input, doc, env)|] == CallTrail(input, doc, env);
    }
  }

  /** The store after a run: the first record, or the merged one, under the run's key. */
  function StoreAfter(kv: map<string, Record>, input: Submission, env: Env): map<string, Record>
  {
    if !Uploaded(env) then kv
    else match HaltOf(env)
      case Completed(feedback) => kv[ResumeKey(env.uuid) := Draft(input, env).(feedback := Parsed(feedback))]
      case _ => kv[ResumeKey(env.uuid) := Draft(input, env)]
  }

  /**
   * A falsy resume upload stops the run with "Error while uploading the
   * file...": nothing is converted, uploaded, stored or analysed.
   */
  lemma UploadFailureHalts(input: Submission, doc: FileRef, env: Env, kv: map<string, Record>)
    requires env.documentUpload.None?
    ensures HaltOf(env) == UploadFailed
    ensures StatusTrail(HaltOf(env)) == [UploadingFile, UploadFileError]
    ensures CallTrail(input, doc, env) == [Upload(doc)]
    ensures Replay(kv, CallTrail(input, doc, env)) == kv
    ensures StoreAfter(kv, input, env) == kv
  {
  }

  /**
   * A conversion without a file stops the run with "Error while converting
   * to image: " followed by the error description, or "Unknown error" when
   * there is none; the store is untouched.
   */
  lemma ConversionFailureHalts(input: Submission, doc: FileRef, env: Env, kv: map<string, Record>)
    requires env.documentUpload.Some? && env.conversion.file.None?
    ensures var t := StatusTrail(HaltOf(env));
      && t == [UploadingFile, Converting, t[2]]
      && t[2][..|ConversionErrorPrefix|] == ConversionErrorPrefix
      && t[2][|ConversionErrorPrefix|..] ==
           (if env.conversion.error.Some? && env.conversion.error.value != ""
            then env.conversion.error.value else UnknownError)
    ensures CallTrail(input, doc, env) == [Upload(doc), Convert(doc)]
    ensures Replay(kv, CallTrail(input, doc, env)) == kv
    ensures StoreAfter(kv, input, env) == kv
  {
    ReplayWithoutWrites(kv, CallTrail(input, doc, env));
  }

  /**
   * A falsy image upload stops the run with "Error while uploading the
   * image" after the resume was uploaded; the store is untouched and the
   * upload is not undone.
   */
  lemma ImageUploadFailureHalts(input: Submission, doc: FileRef, env: Env, kv: map<string, Record>)
    requires env.documentUpload.Some? && env.conversion.file.Some? && env.imageUpload.None?
    ensures StatusTrail(HaltOf(env)) == [UploadingFile, Converting, UploadingImage, UploadImageError]
    ensures CallTrail(input, doc, env) == [Upload(doc), Convert(doc), Upload(env.conversion.file.value)]
    ensures Replay(kv, CallTrail(input, doc, env)) == kv
    ensures StoreAfter(kv, input, env) == kv
  {
    ReplayWithoutWrites(kv, CallTrail(input, doc, env));
  }

  /**
   * Once both uploads succeed, the fourth call writes under `resume:<uuid>`
   * a record whose identifier is the uuid, whose image and resume paths are
   * the two upload paths (in that order), whose job fields are the
   * submitted ones and whose feedback is empty; the analyser is then asked
   * about the uploaded resume with the submitted job title and description.
   */
  lemma FirstWrite(input: Submission, doc: FileRef, env: Env)
    requires env.documentUpload.Some? && env.conversion.file.Some? && env.imageUpload.Some?
    ensures |CallTrail(input, doc, env)| >= 5
    ensures CallTrail(input, doc, env)[3].KvSet?
    ensures CallTrail(input, doc, env)[3].key == ResumeKey(env.uuid)
    ensures var r := CallTrail(input, doc, env)[3].value;
      && r.id == env.uuid
      && r.imagePath == env.imageUpload.value
      && r.resumePath == env.documentUpload.value
      && r.companyName == input.companyName
      && r.jobTitle == input.jobTitle
      && r.jobDescription == input.jobDescription
      && r.feedback == Empty
    ensures CallTrail(input, doc, env)[4] ==
      AiFeedback(env.documentUpload.value, Instructions(input.jobTitle, input.jobDescription))
  {
  }

  /**
   * The calls made once both uploads have a path write only under
   * `resume:<uuid>`, and the store they leave is the run's store.
   */
  lemma AnalysisCallsEffect(input: Submission, env: Env, kv: map<string, Record>)
    requires Uploaded(env)
    ensures WrittenKeys(AnalysisCalls(input, env)) == {ResumeKey(env.uuid)}
    ensures Replay(kv, AnalysisCalls(input, env)) == StoreAfter(kv, input, env)
  {
    var key := ResumeKey(env.uuid);
    var draft := Draft(input, env);
    var first := [KvSet(key, draft), AiFeedback(env.documentUpload.value,
                                                Instructions(input.jobTitle, input.jobDescription))];
    ReplayTwo(kv, first);
    assert WrittenKeys(first) == {key};
    match HaltOf(env)
    case Completed(feedback) =>
      var last := [KvSet(key, draft.(feedback := Parsed(feedback)))];
      assert AnalysisCalls(input, env) == first + last;
      ReplayAppend(kv, first, last);
      WrittenKeysAppend(first, last);
      ReplayTwo(kv[key := draft], last);
      assert WrittenKeys(last) == {key};
    case _ =>
  }

  /** The store after a run is the replay of the calls the run made. */
  lemma StoreAfterIsReplay(input: Submission, doc: FileRef, env: Env, kv: map<string, Record>)
    ensures Replay(kv, CallTrail(input, doc, env)) == StoreAfter(kv, input, env)
    ensures WrittenKeys(CallTrail(input, doc, env)) ==
              if Uploaded(env) then {ResumeKey(env.uuid)} else {}
  {
    var up := UploadCalls(doc, env);
    ReplayWithoutWrites(kv, up);
    if Uploaded(env) {
      var an := AnalysisCalls(input, env);
      ReplayAppend(kv, up, an);
      WrittenKeysAppend(up, an);
      AnalysisCallsEffect(input, env, kv);
    } else {
      assert CallTrail(input, doc, env) == up;
    }
  }

  /**
   * A run that stops after the analyser was called without completing (a
   * falsy response, or an exception while reading it) leaves the first
   * record in the store and touches no other key.
   */
  lemma IncompleteAnalysisKeepsDraft(input: Submission, doc: FileRef, env: Env, kv: map<string, Record>)
    requires env.documentUpload.Some? && env.conversion.file.Some? && env.imageUpload.Some?
    requires HaltOf(env) == AnalysisFailed || HaltOf(env) == Threw
    ensures Replay(kv, CallTrail(input, doc, env)) == kv[ResumeKey(env.uuid) := Draft(input, env)]
    ensures HaltOf(env) == AnalysisFailed <==> env.analysis.None?
    ensures HaltOf(env) == AnalysisFailed ==>
              StatusTrail(HaltOf(env)) == Progress + ["Error: Failed to Analyze Resume"]
  {
    StoreAfterIsReplay(input, doc, env, kv);
  }

  /**
   * A completed run writes twice, both times under `resume:<uuid>`; the
   * record left there is the first one with the parsed feedback text merged
   * in, no other key is touched, the last status is "Analyzing complete,
   * redirecting....", and the parsed value is that of the normalised text.
   */
  lemma CompletedRun(input: Submission, doc: FileRef, env: Env, kv: map<string, Record>)
    requires HaltOf(env).Completed?
    ensures env.documentUpload.Some? && env.conversion.file.Some? && env.imageUpload.Some?
    ensures env.analysis.Some? && FeedbackText(env.analysis.value).Some?
    ensures env.parse(FeedbackText(env.analysis.value).value) == Some(HaltOf(env).feedback)
    ensures |CallTrail(input, doc, env)| == 6
    ensures CallTrail(input, doc, env)[3].KvSet? && CallTrail(input, doc, env)[5].KvSet?
    ensures CallTrail(input, doc, env)[3].key == CallTrail(input, doc, env)[5].key == ResumeKey(env.uuid)
    ensures WrittenKeys(CallTrail(input, doc, env)) == {ResumeKey(env.uuid)}
    ensures Replay(kv, CallTrail(input, doc, env)) ==
              kv[ResumeKey(env.uuid) := Draft(input, env).(feedback := Parsed(HaltOf(env).feedback))]
    ensures StatusTrail(HaltOf(env))[|StatusTrail(HaltOf(env))| - 1] == Complete
  {
    StoreAfterIsReplay(input, doc, env, kv);
  }

  /**
   * A run completes, and so redirects, exactly when both uploads succeed,
   * the analyser answers, its message has a text and that text parses.
   */
  lemma CompletionConditions(env: Env)
    ensures HaltOf(env).Completed? <==>
      && Uploaded(env) && env.analysis.Some?
      && FeedbackText(env.analysis.value).Some?
      && env.parse(FeedbackText(env.analysis.value).value).Some?
  {
  }

  /** Replaying at most two calls applies them one after the other. */
  lemma ReplayTwo(kv: map<string, Record>, calls: seq<Call>)
    requires 1 <= |calls| <= 2
    ensures Replay(kv, calls) ==
      if |calls| == 1 then Apply(kv, calls[0]) else Apply(Apply(kv, calls[0]), calls[1])
  {
    var rest := calls[1..];
    assert Replay(kv, calls) == Replay(Apply(kv, calls[0]), rest);
    if |calls| == 2 {
      assert rest[0] == calls[1] && rest[1..] == [];
      assert Replay(Apply(kv, calls[0]), rest) == Replay(Apply(Apply(kv, calls[0]), calls[1]), []);
    }
  }
}
