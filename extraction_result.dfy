/** The (key, failed_url, error) triple that the extraction stages hand back, and
    the JSON objects the two HTTP services build from it. */
module ExtractionResult {
  import opened PyJson

  /** An arbitrary Python object as the services look at it: its truthiness
      (`if error:`) and its text (`str(error)`). An exception such as `Exception()`
      is truthy and has the empty text. */
  datatype Shown = Shown(truthy: bool, text: string)

  /** A `str` as an error: truthy exactly when it is not empty, and its own text. */
  function StrShown(s: string): (e: Shown)
    ensures e.text == s && (e.truthy <==> s != "")
  {
    Shown(s != "", s)
  }

  /** A provider handler's or the key-fetch flow's result: `key` and `failed_url`
      a `str` or `None`, `error` any object or `None`. */
  datatype Triple = Triple(key: Option<string>, failedUrl: Option<string>, error: Option<Shown>)

  /** `if error:` on the error part; `None` is falsy. */
  predicate ErrorTruthy(t: Triple) {
    t.error.Some? && t.error.value.truthy
  }

  const DefaultFailure: string := "Failed to extract key"

  /** `{'success': False, 'error': message}`. */
  function ErrorObject(message: string): (o: Object)
    ensures o.Keys == {"success", "error"}
    ensures o["success"] == Bool(false) && o["error"] == Str(message)
  {
    map["success" := Bool(false), "error" := Str(message)]
  }

  /** `{'success': False, 'error': str(error) if error else 'Failed to extract key',
      'failed_url': failed_url}`: the error text is empty only for a truthy error
      whose `str` is empty, and `failed_url` is passed on as it came, `None` included. */
  function FailureObject(t: Triple): (o: Object)
    ensures o.Keys == {"success", "error", "failed_url"}
    ensures o["success"] == Bool(false)
    ensures ErrorTruthy(t) ==> o["error"] == Str(t.error.value.text)
    ensures !ErrorTruthy(t) ==> o["error"] == Str(DefaultFailure)
    ensures o["error"].Str? && (o["error"].s == "" <==> ErrorTruthy(t) && t.error.value.text == "")
    ensures o["failed_url"] == OptStr(t.failedUrl)
  {
    var error := if ErrorTruthy(t) then t.error.value.text else DefaultFailure;
    map["success" := Bool(false), "error" := Str(error), "failed_url" := OptStr(t.failedUrl)]
  }

  /** A `str` error or none at all never leaves the answer's error text empty. */
  lemma StrErrorNeverEmpty(key: Option<string>, failedUrl: Option<string>, error: Option<string>)
    ensures var t := Triple(key, failedUrl, if error.Some? then Some(StrShown(error.value)) else None);
      FailureObject(t)["error"].s != ""
  {
  }
}
