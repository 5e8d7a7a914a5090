/** Multipart form bodies (`FormData`) as ordered lists of named parts. */
module Forms {
  import opened Common
  import opened ReportModel

  /** A file chosen in the browser; only its identity matters here. */
  datatype LocalFile = LocalFile(name: string, content: seq<int>)

  /**
   * One value of a form part. The JSON-encoded parts keep their structured value:
   * `JSON.stringify`/`JSON.parse` are not modelled.
   */
  datatype FormValue =
    | Text(text: string)
    | LocationJson(location: Location)
    | ContactJson(contact: Option<ContactInfo>)
    | Blob(file: LocalFile)

  datatype Part = Part(key: string, value: FormValue)

  /** The text a browser sends for `formData.append(key, b)` with a boolean `b`. */
  function BoolText(b: bool): (s: string)
    ensures s == "true" <==> b
  {
    if b then "true" else "false"
  }

  /** The parts appended under `key`, in order, each one a file. */
  function Blobs(key: string, files: seq<LocalFile>): (ps: seq<Part>)
    ensures |ps| == |files|
    ensures forall i :: 0 <= i < |files| ==> ps[i] == Part(key, Blob(files[i]))
  {
    seq(|files|, i requires 0 <= i < |files| => Part(key, Blob(files[i])))
  }
}
