/** The serverless link API (`POST /api` with a JSON body holding `link`): checks the
    link, chooses the provider from a substring of the link, runs its handler and
    maps the handler's triple to a JSON answer. Every answer has status 200. */
module LinkApi {
  import opened Text
  import opened PyJson
  import opened ExtractionResult

  datatype Provider = Nanolinks | Arolinks | Lksfy

  /** The substring of a link that selects each provider. */
  function Fragment(p: Provider): string {
    match p
    case Nanolinks => "nanolinks"
    case Arolinks => "arolinks"
    case Lksfy => "lksfy"
  }

  const SupportedDomains: seq<string> := ["nanolinks", "arolinks", "lksfy"]

  const MissingLinkMessage: string := "Missing link parameter"
  const UnsupportedListedMessage: string :=
    "Unsupported domain. Use links from nanolinks.com, arolinks.com, or lksfy.com"
  const UnsupportedMessage: string := "Unsupported domain"

  function ImportErrorMessage(detail: string): string {
    "Import error: " + detail
  }

  /** A POST whose body is a JSON object, or one that could not be read (no
      `Content-Length`, not JSON, not an object); the latter carries `str(e)`. */
  datatype PostRequest = Unreadable(reason: string) | Posted(data: Object)

  /** A call `handle_<provider>(link, session, verify, debug)`. */
  datatype Invocation = Invocation(provider: Provider, link: Value, verify: bool, debug: bool)

  /** The answer, and the handler call made to produce it, if any. */
  datatype PostOutcome = PostOutcome(reply: HttpReply, invoked: Option<Invocation>)

  /** `data.get('link', '')`. */
  function LinkOf(data: Object): Value {
    if "link" in data then data["link"] else Str("")
  }

  /** `any(domain in link for domain in domains)`: stops at the first hit, and raises
      as soon as `in` does. */
  function AnyDomainIn(domains: seq<string>, link: Value): (r: Py<bool>)
    ensures r.Raises? <==> domains != [] && !(link.Str? || link.StrList?)
    ensures link.Str? ==> r == Returns(exists i :: 0 <= i < |domains| && Contains(link.s, domains[i]))
    ensures link.StrList? ==> r == Returns(exists i :: 0 <= i < |domains| && domains[i] in link.items)
  {
    if domains == [] then Returns(false)
    else
      match In(domains[0], link)
      case Raises(m) => Raises(m)
      case Returns(found) =>
        if found then Returns(true)
        else
          var rest := AnyDomainIn(domains[1..], link);
          assert forall i :: 1 <= i < |domains| ==> domains[i] == domains[1..][i - 1];
          rest
  }

  /** The `if`/`elif` chain choosing the handler: `nanolinks` first, then
      `arolinks`, then `lksfy`. */
  function Dispatch(link: Value): (r: Py<Option<Provider>>)
    ensures link.Str? ==> r.Returns?
    ensures link.Str? && Contains(link.s, "nanolinks") ==> r == Returns(Some(Nanolinks))
    ensures link.Str? && !Contains(link.s, "nanolinks") && Contains(link.s, "arolinks") ==>
              r == Returns(Some(Arolinks))
    ensures link.Str? && !Contains(link.s, "nanolinks") && !Contains(link.s, "arolinks") ==>
              r == Returns(if Contains(link.s, "lksfy") then Some(Lksfy) else None)
    ensures link.StrList? ==>
              r == Returns(if "nanolinks" in link.items then Some(Nanolinks)
                           else if "arolinks" in link.items then Some(Arolinks)
                           else if "lksfy" in link.items then Some(Lksfy)
                           else None)
    ensures In("nanolinks", link) == Returns(true) ==> r == Returns(Some(Nanolinks))
    ensures r.Raises? <==> !(link.Str? || link.StrList?)
    ensures r.Raises? ==> r.message == NotIterableMessage(link)
    ensures r.Returns? && r.value.Some? ==> In(Fragment(r.value.value), link) == Returns(true)
  {
    match In("nanolinks", link)
    case Raises(m) => Raises(m)
    case Returns(true) => Returns(Some(Nanolinks))
    case Returns(false) =>
      match In("arolinks", link)
      case Raises(m) => Raises(m)
      case Returns(true) => Returns(Some(Arolinks))
      case Returns(false) =>
        match In("lksfy", link)
        case Raises(m) => Raises(m)
        case Returns(true) => Returns(Some(Lksfy))
        case Returns(false) => Returns(None)
  }

  /** Once the supported-domain check has passed, the `if`/`elif` chain always picks a
      provider: its final `else` (answering "Unsupported domain") cannot be reached. */
  lemma {:induction false} DispatchAfterCheck(link: Value)
    requires AnyDomainIn(SupportedDomains, link) == Returns(true)
    ensures Dispatch(link).Returns? && Dispatch(link).value.Some?
  {
    var d := SupportedDomains;
    assert d[0] == "nanolinks" && d[1] == "arolinks" && d[2] == "lksfy";
    if link.Str? {
      var i :| 0 <= i < |d| && Contains(link.s, d[i]);
    } else {
      assert link.StrList?;
      var i :| 0 <= i < |d| && d[i] in link.items;
    }
  }

  /** The handler's outcome as a JSON object: `{success, key}` for a truthy key,
      the failure object otherwise, `{success: False, error: str(e)}` if it raised. */
  function HandlerObject(r: Py<Triple>): (o: Object)
    ensures r.Returns? && TruthyStr(r.value.key) ==>
      o == map["success" := Bool(true), "key" := Str(r.value.key.value)]
    ensures r.Returns? && !TruthyStr(r.value.key) ==> o == FailureObject(r.value)
    ensures r.Raises? ==> o == ErrorObject(r.message)
    ensures o["success"] == Bool(true) <==> r.Returns? && TruthyStr(r.value.key)
  {
    match r
    case Raises(m) => ErrorObject(m)
    case Returns(t) =>
      if TruthyStr(t.key) then map["success" := Bool(true), "key" := Str(t.key.value)]
      else FailureObject(t)
  }

  function Answer(body: Object): PostOutcome {
    PostOutcome(HttpReply(200, body), None)
  }

  /** `do_POST`. `importError` is `str(e)` of a failed `import`, `None` when both
      imports succeeded; `handler` stands for the provider handlers. */
  function DoPost(request: PostRequest, importError: Option<string>, handler: Invocation -> Py<Triple>)
    : (out: PostOutcome)
    ensures out.reply.status == 200
    ensures out.invoked.Some? ==>
      && out.invoked.value.verify && !out.invoked.value.debug
      && request.Posted? && out.invoked.value.link == LinkOf(request.data)
      && Truthy(LinkOf(request.data)) && importError.None?
      && In(Fragment(out.invoked.value.provider), LinkOf(request.data)) == Returns(true)
      && Dispatch(LinkOf(request.data)) == Returns(Some(out.invoked.value.provider))
      && out.reply.body == HandlerObject(handler(out.invoked.value))
    ensures out.invoked.None? ==> "success" in out.reply.body && out.reply.body["success"] == Bool(false)
    ensures request.Unreadable? ==> out == Answer(ErrorObject(request.reason))
    ensures request.Posted? && !Truthy(LinkOf(request.data)) ==>
      out == Answer(ErrorObject(MissingLinkMessage))
    ensures request.Posted? && Truthy(LinkOf(request.data)) && importError.Some? ==>
      out == Answer(ErrorObject(ImportErrorMessage(importError.value)))
    ensures request.Posted? && Truthy(LinkOf(request.data)) && importError.None? ==>
      var check := AnyDomainIn(SupportedDomains, LinkOf(request.data));
      && (check.Raises? ==> out == Answer(ErrorObject(check.message)))
      && (check == Returns(false) ==> out == Answer(ErrorObject(UnsupportedListedMessage)))
      && (check == Returns(true) ==> out.invoked.Some?)
  {
    match request
    case Unreadable(reason) => Answer(ErrorObject(reason))
    case Posted(data) =>
      var link := LinkOf(data);
      if !Truthy(link) then Answer(ErrorObject(MissingLinkMessage))
      else if importError.Some? then Answer(ErrorObject(ImportErrorMessage(importError.value)))
      else
        match AnyDomainIn(SupportedDomains, link)
        case Raises(m) => Answer(ErrorObject(m))
        case Returns(supported) =>
          if !supported then Answer(ErrorObject(UnsupportedListedMessage))
          else
            DispatchAfterCheck(link);
            match Dispatch(link)
            case Raises(m) => Answer(ErrorObject(m))
            case Returns(None) => Answer(ErrorObject(UnsupportedMessage))
            case Returns(Some(p)) =>
              var call := Invocation(p, link, true, false);
              PostOutcome(HttpReply(200, HandlerObject(handler(call))), Some(call))
  }

  /** The checks run in a fixed order: a missing or empty link is reported before an
      import failure, which is reported before an unsupported domain. */
  lemma CheckOrder(data: Object, importError: Option<string>, handler: Invocation -> Py<Triple>)
    ensures !Truthy(LinkOf(data)) ==>
      DoPost(Posted(data), importError, handler) == Answer(ErrorObject(MissingLinkMessage))
    ensures Truthy(LinkOf(data)) && importError.Some? ==>
      DoPost(Posted(data), importError, handler) == Answer(ErrorObject(ImportErrorMessage(importError.value)))
  {
  }

  /** A string link naming no provider is refused before any handler runs, whatever the handlers would do. */
  lemma {:induction false} UnsupportedRefusedEarly(data: Object, link: string,
                                                   h1: Invocation -> Py<Triple>, h2: Invocation -> Py<Triple>)
    requires LinkOf(data) == Str(link) && link != ""
    requires forall i :: 0 <= i < |SupportedDomains| ==> !Contains(link, SupportedDomains[i])
    ensures DoPost(Posted(data), None, h1) == Answer(ErrorObject(UnsupportedListedMessage))
    ensures DoPost(Posted(data), None, h1) == DoPost(Posted(data), None, h2)
  {
    assert AnyDomainIn(SupportedDomains, Str(link)) == Returns(false);
  }

  /** The handlers influence the answer only through the one call recorded in `invoked`. */
  lemma HandlerSeenOnlyThroughCall(request: PostRequest, importError: Option<string>,
                                   h1: Invocation -> Py<Triple>, h2: Invocation -> Py<Triple>)
    requires var out := DoPost(request, importError, h1);
      out.invoked.None? || h1(out.invoked.value) == h2(out.invoked.value)
    ensures DoPost(request, importError, h1) == DoPost(request, importError, h2)
  {
  }

  /** A link that passes the supported-domain check always reaches a handler, so
      the fallback answer "Unsupported domain" of the final `else` is never given. */
  lemma {:induction false} FallbackNeverAnswered(request: PostRequest, importError: Option<string>,
                                                 handler: Invocation -> Py<Triple>)
    requires request.Posted? && Truthy(LinkOf(request.data)) && importError.None?
    requires AnyDomainIn(SupportedDomains, LinkOf(request.data)) == Returns(true)
    ensures DoPost(request, importError, handler).invoked.Some?
  {
    DispatchAfterCheck(LinkOf(request.data));
  }
}
