/**
 * The values the upload page works with: the job context the user submits,
 * the resume record it persists, and the answers of the services it calls
 * (blob storage, PDF rasterisation, the analyser, the identifier generator).
 */
module Records {
  import opened Wrappers

  /** A parsed JSON value: the analysis feedback is stored in this form. */
  datatype Json =
    | JNull
    | JBool(b: bool)
    | JNumber(n: real)
    | JString(s: string)
    | JArray(items: seq<Json>)
    | JObject(members: seq<(string, Json)>)

  /** The record's `feedback`: the empty string until the analysis is merged in. */
  datatype Feedback = Empty | Parsed(value: Json)

  /** The resume record written to the key-value store under `resume:<id>`. */
  datatype Record = Record(
    id: string,
    imagePath: string,
    resumePath: string,
    companyName: string,
    jobTitle: string,
    jobDescription: string,
    feedback: Feedback)

  /** The three text fields of the upload form. */
  datatype Submission = Submission(companyName: string, jobTitle: string, jobDescription: string)

  /** An opaque handle on a browser file: the selected resume or its rendered image. */
  datatype FileRef = FileRef(name: string)

  /** What the rasteriser answers: an image file, or an optional error description. */
  datatype Conversion = Conversion(file: Option<FileRef>, error: Option<string>)

  /** The message content of an analyser response: a plain string or a list of parts. */
  datatype Part = Part(text: string)
  datatype Content = Text(s: string) | Parts(parts: seq<Part>)

  /** The prompt handed to the analyser, built from the job title and description. */
  datatype Instructions = Instructions(jobTitle: string, jobDescription: string)

  /**
   * The answers the services give during one run, fixed up front:
   * the path of the uploaded resume (None when the upload is falsy), the
   * rasteriser's answer, the path of the uploaded image, the generated
   * identifier, the analyser's message content (None when the response is
   * falsy), and the outcome of parsing a text as JSON (None when it throws).
   */
  datatype Env = Env(
    documentUpload: Option<string>,
    conversion: Conversion,
    imageUpload: Option<string>,
    uuid: string,
    analysis: Option<Content>,
    parse: string -> Option<Json>)

  /** One call the page makes to a service, in the order it makes them. */
  datatype Call =
    | Upload(file: FileRef)
    | Convert(file: FileRef)
    | KvSet(key: string, value: Record)
    | AiFeedback(path: string, instructions: Instructions)

  /** A client-side navigation, `replace` meaning the history entry is replaced. */
  datatype Navigation = Navigation(to: string, replace: bool)

  /**
   * One observable step of a run: the busy flag being set, a status being
   * shown, a call to a service, or the redirect.
   */
  datatype Event =
    | Busy
    | Shown(status: string)
    | Called(call: Call)
    | Navigated(nav: Navigation)
}
