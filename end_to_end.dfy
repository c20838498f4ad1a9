/** How the two chat bots read the key service's answers: both request the service's
    `/api/get-key`, so every answer the service can give is an input of their key
    extraction. */
module EndToEnd {
  import opened Text
  import opened PyJson
  import opened KeyScan
  import opened KeyExtraction
  import opened ExtractionResult
  import opened KeyService
  import opened WebhookBot
  import opened PollingBot

  /** A key the service answers with is shown by the polling bot as it is, and by the
      webhook bot only when it matches the key pattern. */
  lemma ServiceKeyReachesBots(args: map<string, string>, cfg: Config, st: Stages)
    requires GetKey(args, cfg, st).reply.status == 200
    ensures var body := GetKey(args, cfg, st).reply.body;
      var k := body["key"].s;
      && ApiNotice(Answered(body)) == (if KeyPatternMatches(k) then KeyReady(k) else NoValidKey)
      && GenerateKey(Answered(body))[1] == KeyShown(Str(k))
  {
  }

  /** A failure answer whose `failed_url` is `null` makes `re.search` raise in both
      bots: the webhook bot reports an unexpected error instead of "no valid key". */
  lemma NullFailedUrlRaisesInBots(t: Triple, baseUrl: Option<string>)
    requires !TruthyStr(t.key) && t.failedUrl.None?
    ensures var body := FetchReply(t, baseUrl).body;
      && ApiNotice(Answered(body)) == UnexpectedFailure
      && GenerateKey(Answered(body))[1] == Failed(NotAStringMessage(Null))
  {
  }

  /** A failure answer with a `failed_url` gives the key scanned out of that URL. */
  lemma FailedUrlScanned(t: Triple, baseUrl: Option<string>)
    requires !TruthyStr(t.key) && t.failedUrl.Some?
    ensures var body := FetchReply(t, baseUrl).body;
      ExtractKey(body) == SearchValue(Str(t.failedUrl.value), NotAmpOrSpace)
  {
  }

  /** A failure answer whose `error` text does not mention `key=` makes both bots
      report that no key was found. */
  lemma UnmarkedErrorGivesNoKey(body: Object)
    requires "key" !in body && "failed_url" !in body
    requires "error" in body && body["error"].Str? && !Contains(body["error"].s, Marker)
    ensures ApiNotice(Answered(body)) == NoValidKey
    ensures GenerateKey(Answered(body))[1] == NoKeyFound
  {
    NoMarkerNoMatch(body["error"].s, AsciiAlnum);
  }

  /** The empty-payload answer has neither `key` nor `failed_url`, and its `error` is
      the fixed message. */
  lemma EmptyPayloadAnswerShape(args: map<string, string>, cfg: Config, st: Stages)
    requires GetKey(args, cfg, st).reply.status == 400
    ensures var body := GetKey(args, cfg, st).reply.body;
      && "key" !in body && "failed_url" !in body
      && "error" in body && body["error"] == Str(EmptyPayloadMessage)
  {
  }

  /** The webhook bot is stricter than the polling bot: whenever it reports a key, the
      polling bot shows the same key. */
  lemma WebhookKeyImpliesPollingKey(api: ApiOutcome)
    requires ApiNotice(api).KeyReady?
    ensures GenerateKey(api)[1] == KeyShown(Str(ApiNotice(api).key))
  {
  }

  /** The converse fails: a `failed_url` token with `%` and `=` is shown by the polling
      bot and refused by the webhook bot. */
  lemma PollingKeyNotImpliesWebhookKey()
    ensures var api := Answered(map["failed_url" := Str("key=a%b=")]);
      && GenerateKey(api)[1] == KeyShown(Str("a%b="))
      && ApiNotice(api) == NoValidKey
  {
    UncheckedTokenShown();
    assert !IsAsciiAlnum("a%b="[1]);
  }
}
