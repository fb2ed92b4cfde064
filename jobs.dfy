/** The processing job of the web client (the `ProcessingJob` interface of
    app/page.tsx) and the JavaScript conversions its exports rely on:
    truthiness, `String(value)` and `Object.entries`. */
module Jobs {
  import opened Wrappers
  import opened Dicts
  import opened Text

  datatype JobStatus = Queued | Processing | Completed | Failed

  /** The status as the client spells it. */
  function StatusName(s: JobStatus): string {
    match s
    case Queued => "queued"
    case Processing => "processing"
    case Completed => "completed"
    case Failed => "error"
  }

  /** ProcessingJob; the base64 file data is not modelled. */
  datatype ProcessingJob = ProcessingJob(id: string, fileName: string, fileType: string, status: JobStatus,
                                         progress: int, agents: seq<string>, results: Dict, fileSize: Option<int>)

  /** The truth value of a looked-up property; a missing one is undefined. */
  predicate Truthy(v: Option<Json>) {
    match v
    case None => false
    case Some(j) =>
      match j
      case JNull => false
      case JBool(b) => b
      case JNum(n) => n != 0
      case JStr(s) => s != ""
      case _ => true
  }

  /** `String(value)`, as a template literal interpolates it: arrays join
      their elements with ',' (null elements print empty), objects print
      "[object Object]". */
  function JsString(j: Json): string
    decreases j
  {
    match j
    case JNull => "null"
    case JBool(b) => if b then "true" else "false"
    case JNum(n) => IntToString(n)
    case JStr(s) => s
    case JArr(items) =>
      Join(seq(|items|, i requires 0 <= i < |items| =>
             assert items[i] in items; if items[i].JNull? then "" else JsString(items[i])), ",")
    case JObj(_) => "[object Object]"
  }

  /** `Object.entries(value)`: the fields of an object, the indexed elements
      of an array or the characters of a string, nothing for a number or a
      boolean; null throws a TypeError. */
  function Entries(j: Json): (r: Option<Dict>)
    ensures j.JObj? ==> r == Some(j.fields)
    ensures r.None? <==> j.JNull?
  {
    match j
    case JNull => None
    case JObj(fields) => Some(fields)
    case JArr(items) => Some(seq(|items|, i requires 0 <= i < |items| => (NatToString(i), items[i])))
    case JStr(s) => Some(seq(|s|, i requires 0 <= i < |s| => (NatToString(i), JStr([s[i]]))))
    case _ => Some([])
  }

  /** A job line of the CSV exports: `Metadata,<field>,<value>`. */
  function MetaLine(field: string, value: string): (l: string)
    ensures "Metadata," <= l
  {
    var rest := field + "," + value + "\n";
    assert ("Metadata," + rest)[..9] == "Metadata,";
    "Metadata," + rest
  }
}
