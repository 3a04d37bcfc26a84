# resumeIQ upload pipeline, modelled in Dafny

The upload page of resumeIQ (`app/routes/upload.tsx`) lets a user pick a
resume PDF, fill in a company name, a job title and a job description, and
submit. Submitting runs a strictly sequential pipeline with early exits:

1. upload the resume;
2. render it to an image;
3. upload the image;
4. write a first record to the key-value store under `resume:<uuid>`;
5. ask the AI analyser for feedback;
6. normalise the response's message content to a text;
7. parse it as JSON, merge it into the record and write the record again;
8. redirect to `/resume/<uuid>`, replacing the history entry.

The busy flag is set before anything else. Every step shows a status text
right before its call; the second store write follows the analyser call,
and the completion status comes right before the redirect. A reported
failure stops the run with a fixed error text, and nothing done before it
is undone.

The model is a class `UploadPage` with the page's state as fields:
- `isProcessing`, `statusText` and the selected `file`;
- `kv`, the store;
- `navigatedTo`;
- `trace`, every step the page has taken, in order: the busy flag being
  set (`Busy`), a status shown (`Shown`), a call to a service (`Called`)
  and the redirect (`Navigated`).

Each setter of the page (`SetBusy`, `SetStatusText`, `KvWrite`, `Navigate`)
changes its field and records its step in `trace` in one go, and `Issue`
records a call to a service. The status showing is always the last status
in `trace` (`Valid`).

The services' answers for one run are fixed up front in an `Env` value:
- the two upload paths, each absent when the upload is falsy;
- the rasteriser's answer;
- the generated uuid;
- the analyser's message content, absent when the response is falsy;
- the outcome of parsing a text as JSON.

Given those answers, the handlers are deterministic. The module `Pipeline`
states the run as functions of the answers:
- `HaltOf`: where the run stops;
- `StatusTrail`: the statuses it shows;
- `CallTrail`: the calls it makes;
- `StoreAfter`: the store it leaves;
- `RunEvents`: all its steps in order, built from `UploadEvents` and
  `AnalysisEvents`, where `AnnouncedStep(s, c, rest)` is a status `s` followed
  right away by the call `c`.

`Pipeline.RunEventsProject` proves that the statuses among `RunEvents` are
`StatusTrail` and the calls among them are `CallTrail`.
`Pipeline.RunEventsSteps` and `Pipeline.RunEventsOrder` prove the order:
busy flag first, each progress status right before its call, the redirect
last. The module `Store` gives the meaning of the logged calls with
`Replay`: only a store write changes the store.
`Pipeline.StoreAfterIsReplay` ties the two views together. The method
`HandleAnalyze` is proved against these functions (its new `trace` is the
old one followed by `RunEvents`), and the lemmas prove what the page
promises about every kind of run.

Files:
- `wrappers.dfy`: the `Option` type.
- `records.dfy`: the record, the submission, the services' answers, the calls and the steps.
- `store.dfy`: the store as a replay of calls.
- `pipeline.dfy`: the run as functions, and the lemmas about each kind of run.
- `upload_route.dfy`: the page's state and handlers.

An exception that escapes `handleAnalyze` is modelled as the run stopping
silently, with no further status, write or navigation. One is thrown when
the content is an empty list of parts and `content[0].text` is read. The
other is thrown when `JSON.parse` rejects the text.

`handleAnalyze` is one function in the source. The model splits it at the
point where both uploads have a path, into `PrepareFiles` (lines 25-39) and
`StoreAndAnalyse` (lines 41-70). `HandleAnalyze` sets the busy flag and
runs the first, then the second only when the first answers true. These
are exactly the source's steps, branches and early returns.

The busy flag is set before the first step (`Busy` is the first step of
`RunEvents` and occurs nowhere else) and is never cleared, on any path: no
code in the page resets it. The model follows the code, not an
end-of-run release of the flag.

## Model

| member | source | states |
|---|---|---|
| UploadRoute.UploadPage.constructor | app/routes/upload.tsx:12-16 | the page starts not busy, with an empty status, no file, no steps taken, no navigation and the given store |
| UploadRoute.UploadPage.HandleFileSelect | app/routes/upload.tsx:18-20 | the selected file becomes the given one, or its removal; nothing else changes |
| UploadRoute.UploadPage.SetBusy | app/routes/upload.tsx:23 | the busy flag becomes set, and that is recorded as the page's next step |
| UploadRoute.UploadPage.SetStatusText | app/routes/upload.tsx:14 | the status showing becomes the given text, which is recorded as the page's next step |
| UploadRoute.UploadPage.Issue | app/routes/upload.tsx:26-58 | a call to a service is recorded as the page's next step, the status showing unchanged |
| UploadRoute.UploadPage.Announce | app/routes/upload.tsx:25-38 | a step's status is shown and its call is made right after it, with nothing in between |
| UploadRoute.UploadPage.KvWrite | app/routes/upload.tsx:51-67 | the store maps the key to the record, and the write is recorded as the page's next step |
| UploadRoute.UploadPage.Navigate | app/routes/upload.tsx:70 | the page is sent to the given target, recorded as its next step, the status showing unchanged |
| UploadRoute.UploadPage.PrepareFiles | app/routes/upload.tsx:25-39 | the steps taken are the upload, render and image-upload steps, each status right before its call, ending with the first failure's error status; answers true exactly when both uploads and the render succeeded |
| UploadRoute.UploadPage.StoreAndAnalyse | app/routes/upload.tsx:41-70 | once both uploads have a path: "preparing Data...." then the first write, "Analyzing..." then the analyser call, then the run's ending (the error status, nothing on an exception, or the merged write, the completion status and the redirect); leaves the run's store, and navigates to `/resume/<uuid>` with replace exactly when the run completes |
| UploadRoute.UploadPage.HandleAnalyze | app/routes/upload.tsx:22-72 | the steps taken are the busy flag and then the run's steps in order; the statuses among them are the run's statuses and the one left showing is the run's last; the busy flag ends set; the new store is the run's; navigation happens only on completion, to `/resume/<uuid>` with replace |
| UploadRoute.UploadPage.HandleSubmit | app/routes/upload.tsx:74-87 | with no form or no selected file nothing at all changes; otherwise the pipeline runs on the form's three fields and the selected file |
| UploadRoute.AcmeOutcome | app/routes/upload.tsx:22-70 | a run for "Acme" in which every step succeeds and the analysis text is `{"score": 80}` completes, leaves the merged record under `resume:u-1` and redirects to `/resume/u-1` |
| UploadRoute.AcmeScenario | app/routes/upload.tsx:22-87 | submitting that form leaves the record with both paths, the three fields and the parsed score under `resume:u-1`, shows the five progress statuses and the completion status, and redirects to `/resume/u-1` with replace |
| Store.Replay | app/routes/upload.tsx:51-67 | the keys of the store after a sequence of calls are the old keys plus the keys of the writes among them |
| Store.ReplayAppend | app/routes/upload.tsx:51-67 | replaying two batches of calls in turn is replaying them joined |
| Store.WrittenKeysAppend | app/routes/upload.tsx:51-67 | the keys two joined batches write are the keys either batch writes |
| Store.ReplayWithoutWrites | app/routes/upload.tsx:26-39 | calls that are not store writes (uploads, renders, analyses) leave the store unchanged and write no key |
| Pipeline.AddressingInjective | app/routes/upload.tsx:51-70 | distinct uuids give distinct store keys `resume:<uuid>` and distinct results pages `/resume/<uuid>` |
| Pipeline.ErrorDetail | app/routes/upload.tsx:32 | the detail of the conversion error status is the rasteriser's error text when it is present and non-empty, and "Unknown error" when it is absent or empty (the falsy cases of `||`); it is never empty |
| Pipeline.FeedbackText | app/routes/upload.tsx:62-64 | a text is extracted exactly when the content is a string or a non-empty list of parts, and a string content is extracted as it is |
| Pipeline.FeedbackTextUniform | app/routes/upload.tsx:62-64 | a string content is used as it is, and a list of parts yields its first part's text, so the same text comes out of either shape |
| Pipeline.FeedbackTextDefined | app/routes/upload.tsx:62-64 | a text is obtained exactly when the content is a string or a non-empty list of parts |
| Pipeline.StatusTrailShape | app/routes/upload.tsx:25-68 | every run first shows "uploading the file...."; every status before the last is the next progress status, in order, and none reads as an error; the last reads as an error exactly when the run stopped on a reported failure |
| Pipeline.LastStatusIsLast | app/routes/upload.tsx:14 | the status showing after some steps is the last status among them, or the empty text when none was shown |
| Pipeline.StatusesAppend | app/routes/upload.tsx:25-68 | the statuses and the calls among two joined lists of steps are those of the first list followed by those of the second |
| Pipeline.UploadEventsProject | app/routes/upload.tsx:25-39 | the statuses among the first half's steps are the run's statuses up to the image upload, and its calls are the run's upload, render and image-upload calls |
| Pipeline.AnalysisEventsProject | app/routes/upload.tsx:41-70 | the statuses among the second half's steps are the run's statuses after the image upload, and its calls are the run's store and analyser calls |
| Pipeline.RunEventsProject | app/routes/upload.tsx:22-72 | the statuses among a run's steps are exactly the statuses it shows, and the calls among them exactly the calls it makes, both in order |
| Pipeline.RunStatuses | app/routes/upload.tsx:22-72 | after a run the statuses shown are the earlier ones followed by the run's, and the status left showing is the run's last |
| Pipeline.UploadEventsOrder | app/routes/upload.tsx:25-39 | in the first half every call comes right after a progress status, and every step is a status or a call |
| Pipeline.AnalysisEventsOrder | app/routes/upload.tsx:41-70 | in the second half every call comes right after a progress status or, for the merged write, the analyser call; the redirect happens only on completion, last, right after the completion status |
| Pipeline.RunEventsOrder | app/routes/upload.tsx:22-72 | a run's first step sets the busy flag and no later step does; every call follows its status (the merged write follows the analyser call); between the busy flag and the last step every step is a status or a call; the redirect happens only on completion, as the last step, right after the completion status, to `/resume/<uuid>` with replace |
| Pipeline.UploadEventsSteps | app/routes/upload.tsx:25-38 | in the first half the `k`-th call comes right after the `k`-th progress status |
| Pipeline.AnalysisEventsSteps | app/routes/upload.tsx:41-55 | in the second half "preparing Data...." comes right before the first write and "Analyzing..." right before the analyser call |
| Pipeline.RunEventsSteps | app/routes/upload.tsx:22-70 | after the busy flag, the `k`-th step of a run shows the `k`-th progress status and right after it makes the `k`-th call, for every call but the merged write of a completed run |
| Pipeline.UploadFailureHalts | app/routes/upload.tsx:25-27 | a falsy resume upload stops the run with "Error while uploading the file..." after the upload call alone; the store is unchanged |
| Pipeline.ConversionFailureHalts | app/routes/upload.tsx:29-35 | a render without a file stops the run with "Error while converting to image: " followed by the error text, or by "Unknown error" when the error is absent or empty; no image upload, no store write |
| Pipeline.ImageUploadFailureHalts | app/routes/upload.tsx:37-39 | a falsy image upload stops the run with "Error while uploading the image"; the store is unchanged and the resume upload is not undone |
| Pipeline.FirstWrite | app/routes/upload.tsx:41-58 | the fourth call writes under `resume:<uuid>` a record with id the uuid, image path the image upload's path, resume path the resume upload's path, the three form fields unchanged and empty feedback; the fifth asks the analyser about the resume's path with the job title and description |
| Pipeline.AnalysisCallsEffect | app/routes/upload.tsx:51-67 | once both uploads have a path, the remaining calls write only under `resume:<uuid>` and leave the run's store |
| Pipeline.StoreAfterIsReplay | app/routes/upload.tsx:22-72 | the store after any run is the replay of the calls it made; a run writes the single key `resume:<uuid>` when both uploads succeed, and no key otherwise |
| Pipeline.IncompleteAnalysisKeepsDraft | app/routes/upload.tsx:51-66 | a falsy analyser response stops with "Error: Failed to Analyze Resume", and that or an exception while reading the response leaves the first record, with empty feedback, in the store |
| Pipeline.CompletedRun | app/routes/upload.tsx:51-70 | a completed run makes six calls whose two writes use the same key `resume:<uuid>`; the record left is the first one with the parsed feedback merged in; no other key is touched; the parsed value is that of the normalised text; the last status is "Analyzing complete, redirecting...." |
| Pipeline.CompletionConditions | app/routes/upload.tsx:26-66 | a run completes exactly when both uploads succeed, the analyser answers, a text is obtained from its message and that text parses |

## Left out

- The page's JSX (lines 89-127), `Navbar` and `FileUploader`. The React state hooks are modelled only as the class's fields and setters.
- The hidden form: while the page is busy the form is not rendered (line 103). The model keeps the busy flag but does not model rendering, so nothing stops a second `HandleSubmit` call.
- `fs.upload`, `convertPdfToImage`, `ai.feedback` and `kv.set` are foreign calls. Only their answers appear, as fields of `Env`, and the calls themselves are recorded as steps in `trace`.
- `prepareInstructions` and `AIResponseFormat` are not part of this model. The analyser's prompt is recorded only as the job title and description it is built from.
- `generateUUID`: the uuid is an input, so randomness and uniqueness are not modelled.
- `JSON.stringify` at lines 51 and 67: the store holds the record value itself, not its serialised string.
- `JSON.parse` at line 66 is an input function, and a text that does not parse stops the run.
- JSON numbers are exact `real` values: the IEEE double rounding that `JSON.parse` applies is not modelled. The feedback is only carried into the store, so no property depends on it.
- `FormData` extraction (lines 78-82): the three fields are given strings, and a missing field (`null` cast to string) is not modelled.
- `e.preventDefault()`, `console.error` and `console.log`: they have no effect on the state the model tracks.
- Async scheduling: each `await` is one sequential step, and no two runs interleave.
- A failing or rejecting `kv.set`, `fs.upload`, `convertPdfToImage` or `ai.feedback` promise is not modelled. Only falsy answers are modelled, as the run's error paths, because the source never catches a rejection.
- Other exceptions: apart from the two the source can raise itself (listed above), exceptions are not modelled. Those two appear only as the run stopping, not as an error reported to the caller.
