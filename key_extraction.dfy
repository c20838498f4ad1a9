/** Recovery of a key from the key API's JSON answer: the `key` field if present,
    else the `key=` token of `failed_url`, else the alphanumeric `key=` token of
    `error` when `error` mentions `key=`. Both chat bots use this same rule. */
module KeyExtraction {
  import opened Text
  import opened PyJson
  import opened KeyScan

  /** The outcome of `requests.get(API_URL, timeout=10).json()`: the JSON object
      answered, or the `requests` exception raised instead (a timeout, or any
      other request failure, an unreadable body included). */
  datatype ApiOutcome = TimedOut | RequestFailed | Answered(body: Object)

  /** `re.search(pattern, v).group(1)` or `None`; a TypeError when `v` is not a string. */
  function SearchValue(v: Value, k: TokenClass): (r: Py<Option<Value>>)
    ensures r.Raises? <==> !v.Str?
    ensures r.Returns? && r.value.Some? ==>
      exists t :: r.value.value == Str(t) && Search(v.s, k) == Some(t)
    ensures v.Str? && Search(v.s, k).None? ==> r == Returns(None)
    ensures v.Str? && Search(v.s, k).Some? ==> r == Returns(Some(Str(Search(v.s, k).value)))
    ensures r.Raises? ==> r.message == NotAStringMessage(v)
  {
    match v
    case Str(s) =>
      (match Search(s, k)
       case None => Returns(None)
       case Some(t) => Returns(Some(Str(t))))
    case _ => Raises(NotAStringMessage(v))
  }

  /** The candidate key of an API answer: `None` when no source yields one, the
      exception when a field has a type the scan cannot handle. */
  function ExtractKey(data: Object): (r: Py<Option<Value>>)
    ensures "key" in data ==> r == Returns(Some(data["key"]))
    ensures "key" !in data && "failed_url" in data ==> r == SearchValue(data["failed_url"], NotAmpOrSpace)
    ensures "key" !in data && "failed_url" !in data && "error" !in data ==> r == Returns(None)
    ensures "key" !in data && "failed_url" !in data && "error" in data ==>
      var e := data["error"];
      && (!(e.Str? || e.StrList?) ==> r == Raises(NotIterableMessage(e)))
      && (e.StrList? ==> r == if Marker in e.items then Raises(NotAStringMessage(e)) else Returns(None))
      && (e.Str? ==> r.Returns?)
  {
    if "key" in data then Returns(Some(data["key"]))
    else if "failed_url" in data then SearchValue(data["failed_url"], NotAmpOrSpace)
    else if "error" in data then
      match In(Marker, data["error"])
      case Raises(m) => Raises(m)
      case Returns(mentioned) =>
        if mentioned then SearchValue(data["error"], AsciiAlnum) else Returns(None)
    else Returns(None)
  }

  /** A key taken from the `failed_url` or `error` text is the capture of the scan of
      that text (the longest run after the leftmost match, by `Search`), non-empty and
      free of `&` and whitespace; from `error` it is alphanumeric. */
  lemma {:induction false} ScannedKeyShape(data: Object)
    requires "key" !in data
    requires ExtractKey(data).Returns? && ExtractKey(data).value.Some?
    ensures ExtractKey(data).value.value.Str?
    ensures var t := ExtractKey(data).value.value.s;
      && t != []
      && AllInClass(t, NotAmpOrSpace)
      && ("failed_url" !in data ==> AllInClass(t, AsciiAlnum))
    ensures "failed_url" in data ==>
      data["failed_url"].Str? && Search(data["failed_url"].s, NotAmpOrSpace) == Some(ExtractKey(data).value.value.s)
    ensures "failed_url" !in data ==>
      "error" in data && data["error"].Str? && Search(data["error"].s, AsciiAlnum) == Some(ExtractKey(data).value.value.s)
  {
    var t := ExtractKey(data).value.value.s;
    if "failed_url" in data {
      assert Search(data["failed_url"].s, NotAmpOrSpace) == Some(t);
    } else {
      assert Search(data["error"].s, AsciiAlnum) == Some(t);
      forall m | 0 <= m < |t| ensures InClass(t[m], NotAmpOrSpace) {
        assert InClass(t[m], AsciiAlnum);
      }
    }
  }

  /** The `key` field wins: with it present, `failed_url` and `error` are ignored. */
  lemma KeyFieldWins(data: Object, failedUrl: Value, error: Value)
    requires "key" in data
    ensures ExtractKey(data["failed_url" := failedUrl]["error" := error]) == ExtractKey(data)
  {
  }

  /** Without a `key` field, `failed_url` wins over `error`, even when it yields no key. */
  lemma FailedUrlWinsOverError(data: Object, error: Value)
    requires "key" !in data && "failed_url" in data
    ensures ExtractKey(data["error" := error]) == ExtractKey(data)
  {
  }

  /** An `error` string is scanned for an alphanumeric token exactly when it has no
      `key` or `failed_url` beside it; a mention of `key=` followed by no
      alphanumeric character yields no key. */
  lemma {:induction false} ErrorTextScan(data: Object)
    requires "key" !in data && "failed_url" !in data
    requires "error" in data && data["error"].Str?
    ensures ExtractKey(data) == SearchValue(data["error"], AsciiAlnum)
  {
    var e := data["error"].s;
    if !Contains(e, Marker) {
      NoMarkerNoMatch(e, AsciiAlnum);
    }
  }
}
