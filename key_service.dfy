/** The key service (`GET /api/get-key`): reads its query flags, runs the
    extraction stages in order (harvest headers, combine the payload, decode it,
    extract the base URL, fetch the key) and maps the outcome to a JSON answer.
    The stages themselves are parameters: nothing is assumed about what they do
    beyond the Python types of their results. */
module KeyService {
  import opened Text
  import opened PyJson
  import opened ExtractionResult

  /** The constants the service reads from the extraction library:
      `DEFAULT_TARGET`, `DEFAULT_USER_AGENT` and the XOR secret `KEY`. */
  datatype Config = Config(defaultTarget: string, userAgent: string, secret: string)

  datatype Flags = Flags(targetUrl: string, sslBypass: bool, debug: bool, verify: bool)

  /** `request.args.get(name, 'false').lower() == 'true'`. */
  predicate FlagOn(args: map<string, string>, name: string) {
    name in args && IsTrueText(args[name])
  }

  /** The optional query parameters: the target defaults to `DEFAULT_TARGET`, a flag is
      on only when its text is `true` in any letter case, and `verify` is the
      opposite of `ssl_bypass`. */
  function ParseFlags(args: map<string, string>, defaultTarget: string): (f: Flags)
    ensures f.targetUrl == if "target_url" in args then args["target_url"] else defaultTarget
    ensures f.sslBypass <==> "ssl_bypass" in args && SpellsTrue(args["ssl_bypass"])
    ensures f.debug <==> "debug" in args && SpellsTrue(args["debug"])
    ensures f.verify == !f.sslBypass
  {
    var targetUrl := if "target_url" in args then args["target_url"] else defaultTarget;
    var sslBypass := FlagOn(args, "ssl_bypass");
    var debug := FlagOn(args, "debug");
    IsTrueTextSpelled(if "ssl_bypass" in args then args["ssl_bypass"] else "");
    IsTrueTextSpelled(if "debug" in args then args["debug"] else "");
    Flags(targetUrl, sslBypass, debug, !sslBypass)
  }

  /** The five stages of the extraction library, each of which may raise.
      `harvest(target_url, user_agent, verify, debug)` gives the response headers;
      `combine(headers, debug)` the payload chunks and the missing header names;
      `decode(combined, key_bytes, debug)` the plaintext; `extract(decoded, debug)`
      the base URL or `None`; `fetch(baseurl, verify, debug, user_agent)` the triple. */
  datatype Stages = Stages(
    harvest: (string, string, bool, bool) -> Py<map<string, string>>,
    combine: (map<string, string>, bool) -> Py<(seq<string>, seq<string>)>,
    decode: (seq<string>, seq<int>, bool) -> Py<string>,
    extract: (string, bool) -> Py<Option<string>>,
    fetch: (Option<string>, bool, bool, string) -> Py<Triple>)

  /** One stage call with its arguments. */
  datatype Call =
    | Harvest(url: string, userAgent: string, verify: bool, debug: bool)
    | Combine(headers: map<string, string>, debug: bool)
    | Decode(combined: seq<string>, keyBytes: seq<int>, debug: bool)
    | Extract(decoded: string, debug: bool)
    | Fetch(baseUrl: Option<string>, verify: bool, debug: bool, userAgent: string)

  /** The place of a stage in the pipeline. */
  function Position(c: Call): nat {
    match c
    case Harvest(_, _, _, _) => 0
    case Combine(_, _) => 1
    case Decode(_, _, _) => 2
    case Extract(_, _) => 3
    case Fetch(_, _, _, _) => 4
  }

  /** Call `b` is made with what call `a` returned. */
  predicate Feeds(st: Stages, a: Call, b: Call) {
    match (a, b)
    case (Harvest(u, ua, v, d), Combine(h, _)) => st.harvest(u, ua, v, d) == Returns(h)
    case (Combine(h, d), Decode(c, _, _)) => st.combine(h, d).Returns? && st.combine(h, d).value.0 == c
    case (Decode(c, kb, d), Extract(x, _)) => st.decode(c, kb, d) == Returns(x)
    case (Extract(x, d), Fetch(b, _, _, _)) => st.extract(x, d) == Returns(b)
    case _ => false
  }

  /** Every call after the first is fed by the call before it. */
  predicate Chained(st: Stages, calls: seq<Call>) {
    forall i :: 0 < i < |calls| ==> Feeds(st, calls[i - 1], calls[i])
  }

  /** Every call carries the request's flags. */
  predicate UsesFlags(calls: seq<Call>, f: Flags) {
    forall i :: 0 <= i < |calls| ==>
      calls[i].debug == f.debug && (calls[i].Harvest? || calls[i].Fetch? ==> calls[i].verify == f.verify)
  }

  /** The message of the exception a computation raised, `None` when it returned. */
  function ErrorOf<T>(r: Py<T>): Option<string> {
    if r.Raises? then Some(r.message) else None
  }

  /** The message of the exception a stage call raised, `None` when it returned. */
  function RaisedBy(st: Stages, c: Call): Option<string> {
    match c
    case Harvest(u, ua, v, d) => ErrorOf(st.harvest(u, ua, v, d))
    case Combine(h, d) => ErrorOf(st.combine(h, d))
    case Decode(x, kb, d) => ErrorOf(st.decode(x, kb, d))
    case Extract(x, d) => ErrorOf(st.extract(x, d))
    case Fetch(b, v, d, ua) => ErrorOf(st.fetch(b, v, d, ua))
  }

  /** The answer and the stage calls that were made, in order. */
  datatype Served = Served(reply: HttpReply, calls: seq<Call>)

  const EmptyPayloadMessage: string := "Combined payload empty - server did not return required headers"

  /** `all(not ch for ch in combined)`. A plain string payload is the sequence of its
      one-character chunks, for which this means the string is empty. */
  predicate AllEmpty(combined: seq<string>) {
    forall i :: 0 <= i < |combined| ==> combined[i] == ""
  }

  function ExceptionReply(message: string): HttpReply {
    HttpReply(500, ErrorObject(message))
  }

  /** The answer to the key-fetch triple: 200 with the key and base URL for a truthy
      key, which is not format-checked; 500 with the failure object otherwise. */
  function FetchReply(t: Triple, baseUrl: Option<string>): (r: HttpReply)
    ensures TruthyStr(t.key) ==>
      r == HttpReply(200, map["success" := Bool(true), "key" := Str(t.key.value), "baseUrl" := OptStr(baseUrl)])
    ensures !TruthyStr(t.key) ==> r == HttpReply(500, FailureObject(t))
  {
    if TruthyStr(t.key) then
      HttpReply(200, map["success" := Bool(true), "key" := Str(t.key.value), "baseUrl" := OptStr(baseUrl)])
    else HttpReply(500, FailureObject(t))
  }

  /** `get_key`. */
  function GetKey(args: map<string, string>, cfg: Config, st: Stages): (out: Served)
    ensures 1 <= |out.calls| <= 5
    ensures out.reply.status in {200, 400, 500}
    ensures out.reply.status == 400 ==> |out.calls| == 2
    ensures out.reply.status == 200 ==> |out.calls| == 5
    ensures out.reply.status == 200 <==>
      "key" in out.reply.body && out.reply.body["key"].Str? && out.reply.body["key"].s != ""
  {
    var f := ParseFlags(args, cfg.defaultTarget);
    var harvest := Harvest(f.targetUrl, cfg.userAgent, f.verify, f.debug);
    match st.harvest(f.targetUrl, cfg.userAgent, f.verify, f.debug)
    case Raises(e) => Served(ExceptionReply(e), [harvest])
    case Returns(headers) =>
      var combine := Combine(headers, f.debug);
      match st.combine(headers, f.debug)
      case Raises(e) => Served(ExceptionReply(e), [harvest, combine])
      case Returns(assembled) =>
        var (combined, missing) := assembled;
        if AllEmpty(combined) then
          Served(HttpReply(400, map["success" := Bool(false), "error" := Str(EmptyPayloadMessage),
                                    "missing_headers" := StrList(missing)]),
                 [harvest, combine])
        else
          var keyBytes := Utf8Encode(cfg.secret);
          var decode := Decode(combined, keyBytes, f.debug);
          match st.decode(combined, keyBytes, f.debug)
          case Raises(e) => Served(ExceptionReply(e), [harvest, combine, decode])
          case Returns(decoded) =>
            var extract := Extract(decoded, f.debug);
            match st.extract(decoded, f.debug)
            case Raises(e) => Served(ExceptionReply(e), [harvest, combine, decode, extract])
            case Returns(baseUrl) =>
              var fetch := Fetch(baseUrl, f.verify, f.debug, cfg.userAgent);
              var calls := [harvest, combine, decode, extract, fetch];
              match st.fetch(baseUrl, f.verify, f.debug, cfg.userAgent)
              case Raises(e) => Served(ExceptionReply(e), calls)
              case Returns(t) => Served(FetchReply(t, baseUrl), calls)
  }

  /** The stages run strictly in order, harvest first, each one only on what the one
      before it returned. */
  lemma {:induction false} StagesInOrder(args: map<string, string>, cfg: Config, st: Stages)
    ensures var calls := GetKey(args, cfg, st).calls;
      && (forall i :: 0 <= i < |calls| ==> Position(calls[i]) == i)
      && Chained(st, calls)
  {
    var f := ParseFlags(args, cfg.defaultTarget);
    var calls := GetKey(args, cfg, st).calls;
    var hc := Harvest(f.targetUrl, cfg.userAgent, f.verify, f.debug);
    var h := st.harvest(f.targetUrl, cfg.userAgent, f.verify, f.debug);
    if h.Returns? {
      var cc := Combine(h.value, f.debug);
      var cb := st.combine(h.value, f.debug);
      assert Feeds(st, hc, cc);
      if cb.Returns? && !AllEmpty(cb.value.0) {
        var kb := Utf8Encode(cfg.secret);
        var dcc := Decode(cb.value.0, kb, f.debug);
        var dc := st.decode(cb.value.0, kb, f.debug);
        assert Feeds(st, cc, dcc);
        if dc.Returns? {
          var xc := Extract(dc.value, f.debug);
          var x := st.extract(dc.value, f.debug);
          assert Feeds(st, dcc, xc);
          if x.Returns? {
            var fc := Fetch(x.value, f.verify, f.debug, cfg.userAgent);
            assert Feeds(st, xc, fc);
            assert calls == [hc, cc, dcc, xc, fc];
          } else {
            assert calls == [hc, cc, dcc, xc];
          }
        } else {
          assert calls == [hc, cc, dcc];
        }
      } else {
        assert calls == [hc, cc];
      }
    } else {
      assert calls == [hc];
    }
  }

  /** The last stage call of a request. */
  function LastCall(args: map<string, string>, cfg: Config, st: Stages): Call {
    var calls := GetKey(args, cfg, st).calls;
    calls[|calls| - 1]
  }

  /** Only the last stage call can have raised: every call before it returned. */
  lemma {:induction false} EarlierCallsReturned(args: map<string, string>, cfg: Config, st: Stages)
    ensures var calls := GetKey(args, cfg, st).calls;
      forall i :: 0 <= i < |calls| - 1 ==> RaisedBy(st, calls[i]).None?
  {
    var f := ParseFlags(args, cfg.defaultTarget);
    var calls := GetKey(args, cfg, st).calls;
    var hc := Harvest(f.targetUrl, cfg.userAgent, f.verify, f.debug);
    var h := st.harvest(f.targetUrl, cfg.userAgent, f.verify, f.debug);
    if h.Returns? {
      var cc := Combine(h.value, f.debug);
      var cb := st.combine(h.value, f.debug);
      if cb.Returns? && !AllEmpty(cb.value.0) {
        var kb := Utf8Encode(cfg.secret);
        var dcc := Decode(cb.value.0, kb, f.debug);
        var dc := st.decode(cb.value.0, kb, f.debug);
        if dc.Returns? {
          var xc := Extract(dc.value, f.debug);
          var x := st.extract(dc.value, f.debug);
          if x.Returns? {
            assert calls == [hc, cc, dcc, xc, Fetch(x.value, f.verify, f.debug, cfg.userAgent)];
          } else {
            assert calls == [hc, cc, dcc, xc];
          }
        } else {
          assert calls == [hc, cc, dcc];
        }
      } else {
        assert calls == [hc, cc];
      }
    } else {
      assert calls == [hc];
    }
  }

  /** When the last stage call raised, the answer is 500 with its message. */
  lemma {:induction false} RaisedStageAnswer(args: map<string, string>, cfg: Config, st: Stages)
    requires RaisedBy(st, LastCall(args, cfg, st)).Some?
    ensures GetKey(args, cfg, st).reply == ExceptionReply(RaisedBy(st, LastCall(args, cfg, st)).value)
  {
    var f := ParseFlags(args, cfg.defaultTarget);
    var calls := GetKey(args, cfg, st).calls;
    var hc := Harvest(f.targetUrl, cfg.userAgent, f.verify, f.debug);
    var h := st.harvest(f.targetUrl, cfg.userAgent, f.verify, f.debug);
    if h.Returns? {
      var cc := Combine(h.value, f.debug);
      var cb := st.combine(h.value, f.debug);
      if cb.Returns? && !AllEmpty(cb.value.0) {
        var kb := Utf8Encode(cfg.secret);
        var dcc := Decode(cb.value.0, kb, f.debug);
        var dc := st.decode(cb.value.0, kb, f.debug);
        if dc.Returns? {
          var xc := Extract(dc.value, f.debug);
          var x := st.extract(dc.value, f.debug);
          if x.Returns? {
            assert calls == [hc, cc, dcc, xc, Fetch(x.value, f.verify, f.debug, cfg.userAgent)];
          } else {
            assert calls == [hc, cc, dcc, xc];
          }
        } else {
          assert calls == [hc, cc, dcc];
        }
      } else {
        assert calls == [hc, cc];
      }
    } else {
      assert calls == [hc];
    }
  }

  /** When fetch ran and returned, the answer is built from its triple and the base URL. */
  lemma {:induction false} FetchedAnswer(args: map<string, string>, cfg: Config, st: Stages)
    requires var last := LastCall(args, cfg, st);
      last.Fetch? && st.fetch(last.baseUrl, last.verify, last.debug, last.userAgent).Returns?
    ensures var last := LastCall(args, cfg, st);
      GetKey(args, cfg, st).reply ==
        FetchReply(st.fetch(last.baseUrl, last.verify, last.debug, last.userAgent).value, last.baseUrl)
  {
  }

  /** When the last call returned and was not fetch, it was combine, its payload is
      all empty, and the answer is 400 with the missing header names it returned. */
  lemma {:induction false} StoppedAfterCombine(args: map<string, string>, cfg: Config, st: Stages)
    requires RaisedBy(st, LastCall(args, cfg, st)).None? && !LastCall(args, cfg, st).Fetch?
    ensures var last := LastCall(args, cfg, st);
      && last.Combine? && st.combine(last.headers, last.debug).Returns?
      && var (combined, missing) := st.combine(last.headers, last.debug).value;
      && AllEmpty(combined)
      && GetKey(args, cfg, st).reply ==
           HttpReply(400, map["success" := Bool(false), "error" := Str(EmptyPayloadMessage),
                              "missing_headers" := StrList(missing)])
  {
  }

  /** Every stage call carries the request's `debug` flag, harvest and fetch its
      `verify` flag and the default user agent, and decode gets the UTF-8 bytes of
      the secret. */
  lemma {:induction false} StagesGetFlags(args: map<string, string>, cfg: Config, st: Stages)
    ensures var f := ParseFlags(args, cfg.defaultTarget);
      var calls := GetKey(args, cfg, st).calls;
      && UsesFlags(calls, f)
      && calls[0] == Harvest(f.targetUrl, cfg.userAgent, f.verify, f.debug)
      && (|calls| >= 3 ==> calls[2].keyBytes == Utf8Encode(cfg.secret))
      && (|calls| == 5 ==> calls[4].userAgent == cfg.userAgent)
  {
    var f := ParseFlags(args, cfg.defaultTarget);
    var calls := GetKey(args, cfg, st).calls;
    var hc := Harvest(f.targetUrl, cfg.userAgent, f.verify, f.debug);
    var h := st.harvest(f.targetUrl, cfg.userAgent, f.verify, f.debug);
    if h.Returns? {
      var cc := Combine(h.value, f.debug);
      var cb := st.combine(h.value, f.debug);
      if cb.Returns? && !AllEmpty(cb.value.0) {
        var kb := Utf8Encode(cfg.secret);
        var dcc := Decode(cb.value.0, kb, f.debug);
        var dc := st.decode(cb.value.0, kb, f.debug);
        if dc.Returns? {
          var xc := Extract(dc.value, f.debug);
          var x := st.extract(dc.value, f.debug);
          if x.Returns? {
            assert calls == [hc, cc, dcc, xc, Fetch(x.value, f.verify, f.debug, cfg.userAgent)];
          } else {
            assert calls == [hc, cc, dcc, xc];
          }
        } else {
          assert calls == [hc, cc, dcc];
        }
      } else {
        assert calls == [hc, cc];
      }
    } else {
      assert calls == [hc];
    }
  }

  /** What combine returned on the harvested headers, when both stages returned. */
  function CombinedBy(args: map<string, string>, cfg: Config, st: Stages): (seq<string>, seq<string>)
    requires var f := ParseFlags(args, cfg.defaultTarget);
      && st.harvest(f.targetUrl, cfg.userAgent, f.verify, f.debug).Returns?
      && st.combine(st.harvest(f.targetUrl, cfg.userAgent, f.verify, f.debug).value, f.debug).Returns?
  {
    var f := ParseFlags(args, cfg.defaultTarget);
    st.combine(st.harvest(f.targetUrl, cfg.userAgent, f.verify, f.debug).value, f.debug).value
  }

  /** When every payload chunk is empty the answer is 400 with the missing header
      names, only harvest and combine have run, and what decode, extract and fetch
      would do makes no difference. */
  lemma EmptyPayloadStopsEarly(args: map<string, string>, cfg: Config, st: Stages, st': Stages)
    requires var f := ParseFlags(args, cfg.defaultTarget);
      && st.harvest(f.targetUrl, cfg.userAgent, f.verify, f.debug).Returns?
      && var headers := st.harvest(f.targetUrl, cfg.userAgent, f.verify, f.debug).value;
      && st.combine(headers, f.debug).Returns?
      && AllEmpty(st.combine(headers, f.debug).value.0)
    requires st'.harvest == st.harvest && st'.combine == st.combine
    ensures GetKey(args, cfg, st).reply ==
      HttpReply(400, map["success" := Bool(false), "error" := Str(EmptyPayloadMessage),
                         "missing_headers" := StrList(CombinedBy(args, cfg, st).1)])
    ensures |GetKey(args, cfg, st).calls| == 2
    ensures GetKey(args, cfg, st') == GetKey(args, cfg, st)
  {
  }

  /** No query parameters: the default target is fetched with certificate checks on
      and debugging off. */
  lemma DefaultsWithoutParameters(cfg: Config, st: Stages)
    ensures GetKey(map[], cfg, st).calls[0] == Harvest(cfg.defaultTarget, cfg.userAgent, true, false)
  {
  }

  /** The answer's status says how far the pipeline got: 200 exactly when fetch
      returned a truthy key. */
  lemma {:induction false} SuccessMeansKey(args: map<string, string>, cfg: Config, st: Stages)
    ensures var out := GetKey(args, cfg, st);
      out.reply.status == 200 <==>
        |out.calls| == 5 &&
        var c := out.calls[4];
        st.fetch(c.baseUrl, c.verify, c.debug, c.userAgent).Returns? &&
        TruthyStr(st.fetch(c.baseUrl, c.verify, c.debug, c.userAgent).value.key)
  {
  }

  /** The service passes on any truthy key, whatever its format. */
  lemma KeyNotFormatChecked(args: map<string, string>, cfg: Config)
    ensures var st := Stages(
        (u: string, ua: string, v: bool, d: bool) => Returns(map[]),
        (h: map<string, string>, d: bool) => Returns((["chunk"], [])),
        (c: seq<string>, kb: seq<int>, d: bool) => Returns("plain"),
        (x: string, d: bool) => Returns(Some("https://base")),
        (b: Option<string>, v: bool, d: bool, ua: string) => Returns(Triple(Some("%"), None, None)));
      GetKey(args, cfg, st).reply ==
        HttpReply(200, map["success" := Bool(true), "key" := Str("%"), "baseUrl" := Str("https://base")])
  {
    assert !AllEmpty(["chunk"]) by { assert ["chunk"][0] != ""; }
  }
}
