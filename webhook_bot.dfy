/** The Telegram webhook service: routes chat commands, rate-limits key requests
    per user (one every 30 seconds), asks the key API for a key and reports it
    only when it has the key format. */
module WebhookBot {
  import opened Text
  import opened PyJson
  import opened KeyScan
  import opened KeyExtraction

  const RateLimitSeconds: int := 30

  /** The kinds of chat message the service sends. */
  datatype Notice =
    | Welcome
    | HelpText
    | PleaseWait(seconds: int)
    | Generating
    | KeyReady(key: string)
    | NoValidKey
    | RequestTimeout
    | NetworkFailure
    | UnexpectedFailure
    | NotUnderstood

  datatype Outgoing = Outgoing(chat: int, notice: Notice)

  /** Python's `int(x)` on a float: truncation toward zero. */
  function Trunc(x: real): (n: int)
    ensures x >= 0.0 ==> 0 <= n && n as real <= x < n as real + 1.0
    ensures x < 0.0 ==> n <= 0 && n as real - 1.0 < x <= n as real
  {
    if x >= 0.0 then x.Floor else -((-x).Floor)
  }

  // ---------------------------------------------------------------- rate limit

  datatype Admission = Admitted | Throttled(wait: int)

  /** The decision for a request at `now` from a user last admitted at `last`. */
  function Admit(last: real, now: real): (a: Admission)
    ensures a.Throttled? <==> now - last < RateLimitSeconds as real
    ensures a.Throttled? ==>
      a.wait as real <= RateLimitSeconds as real - (now - last) < a.wait as real + 1.0
  {
    var diff := now - last;
    if diff < RateLimitSeconds as real then Throttled(Trunc(RateLimitSeconds as real - diff))
    else Admitted
  }

  /** When the clock has not gone back, the announced wait is between 0 and 30
      seconds, and it is 30 only for a repeat at the very same instant. */
  lemma WaitWithinLimit(last: real, now: real)
    requires last <= now && Admit(last, now).Throttled?
    ensures 0 <= Admit(last, now).wait <= RateLimitSeconds
    ensures Admit(last, now).wait == RateLimitSeconds <==> now == last
  {
  }

  /** The wait is truncated, so a user may be told to wait 0 seconds and still be refused. */
  lemma WaitCanBeZero()
    ensures Admit(100.0, 129.5) == Throttled(0)
  {
  }

  /** The recorded time of a user; `defaultdict(float)` gives 0.0 to a user never seen. */
  function LastSeen(m: map<int, real>, user: int): real {
    if user in m then m[user] else 0.0
  }

  /** The table after a key request: reading a missing user inserts 0.0, and an
      admitted request records its time before the API is asked. */
  function Recorded(m: map<int, real>, user: int, now: real): (r: map<int, real>)
    ensures user in r && r.Keys == m.Keys + {user}
    ensures LastSeen(r, user) == if Admit(LastSeen(m, user), now).Admitted? then now else LastSeen(m, user)
    ensures forall u :: u != user ==> LastSeen(r, u) == LastSeen(m, u)
    ensures forall u :: u != user && u in m ==> u in r && r[u] == m[u]
  {
    var last := LastSeen(m, user);
    if Admit(last, now).Admitted? then m[user := now] else m[user := last]
  }

  datatype Request = Request(user: int, now: real)

  /** The times at which `user`'s key requests in `log` are admitted, starting from table `m`. */
  function AdmittedTimes(m: map<int, real>, log: seq<Request>, user: int): seq<real>
    decreases |log|
  {
    if log == [] then []
    else
      var r := log[0];
      var rest := AdmittedTimes(Recorded(m, r.user, r.now), log[1..], user);
      if r.user == user && Admit(LastSeen(m, user), r.now).Admitted? then [r.now] + rest else rest
  }

  /** One request at a time: a request adds its time to the user's admissions exactly
      when it is that user's and the bot answers it with the "generating" notice, and
      the rest of the log then runs on the table that request left. */
  lemma AdmittedTimesStep(m: map<int, real>, r: Request, log: seq<Request>, user: int,
                          chat: int, api: ApiOutcome)
    ensures var sent := KeyGenerationMessages(chat, Admit(LastSeen(m, r.user), r.now), api);
      AdmittedTimes(m, [r] + log, user) ==
        (if r.user == user && sent[0].notice == Generating then [r.now] else [])
        + AdmittedTimes(Recorded(m, r.user, r.now), log, user)
  {
    assert ([r] + log)[0] == r;
    assert ([r] + log)[1..] == log;
  }

  /** Each time in `ts` is at least the rate limit after the one before it, the
      first at least the rate limit after `start`. */
  predicate SpacedFrom(ts: seq<real>, start: real) {
    ts == [] || (ts[0] - start >= RateLimitSeconds as real && SpacedFrom(ts[1..], ts[0]))
  }

  /** Whatever the order and the times of the requests, two admitted key requests of
      one user are at least 30 seconds apart, and the first is 30 seconds after the
      time recorded for the user at the start. */
  lemma {:induction false} AdmissionsSpaced(m: map<int, real>, log: seq<Request>, user: int)
    ensures SpacedFrom(AdmittedTimes(m, log, user), LastSeen(m, user))
    decreases |log|
  {
    if log != [] {
      var r := log[0];
      var m' := Recorded(m, r.user, r.now);
      AdmissionsSpaced(m', log[1..], user);
      if r.user == user && Admit(LastSeen(m, user), r.now).Admitted? {
        assert LastSeen(m', user) == r.now;
        var ts := [r.now] + AdmittedTimes(m', log[1..], user);
        assert ts[1..] == AdmittedTimes(m', log[1..], user);
      } else {
        assert LastSeen(m', user) == LastSeen(m, user);
      }
    }
  }

  // ---------------------------------------------------------------- key validation

  datatype Verdict = Valid(key: string) | Invalid | Crashed

  /** `if key and re.match(r'^[A-Za-z0-9]{8,20}$', key)`: a falsy candidate is
      invalid, a truthy non-string makes `re.match` raise. */
  function Validate(candidate: Py<Option<Value>>): (v: Verdict)
    ensures v.Valid? <==> exists s :: candidate == Returns(Some(Str(s))) && KeyPatternMatches(s)
    ensures v.Valid? ==> candidate == Returns(Some(Str(v.key)))
    ensures v.Crashed? <==>
      candidate.Raises? || (candidate.value.Some? && Truthy(candidate.value.value) && !candidate.value.value.Str?)
  {
    match candidate
    case Raises(_) => Crashed
    case Returns(None) => Invalid
    case Returns(Some(v)) =>
      if !Truthy(v) then Invalid
      else
        match v
        case Str(s) => if KeyPatternMatches(s) then Valid(s) else Invalid
        case _ => Crashed
  }

  /** The final message of an admitted key request. */
  function ApiNotice(api: ApiOutcome): (n: Notice)
    ensures n.KeyReady? ==> api.Answered? && Validate(ExtractKey(api.body)) == Valid(n.key)
    ensures api.Answered? && Validate(ExtractKey(api.body)).Valid? ==>
      n == KeyReady(Validate(ExtractKey(api.body)).key)
    ensures api.Answered? ==> (n == NoValidKey <==> Validate(ExtractKey(api.body)).Invalid?)
    ensures n == UnexpectedFailure <==> api.Answered? && Validate(ExtractKey(api.body)).Crashed?
    ensures api.TimedOut? <==> n == RequestTimeout
    ensures api.RequestFailed? <==> n == NetworkFailure
  {
    match api
    case TimedOut => RequestTimeout
    case RequestFailed => NetworkFailure
    case Answered(body) =>
      match Validate(ExtractKey(body))
      case Valid(k) => KeyReady(k)
      case Invalid => NoValidKey
      case Crashed => UnexpectedFailure
  }

  /** A key is only ever reported when it matches the key pattern; when it was
      scanned out of `failed_url` or `error` it has exactly the format
      `[A-Za-z0-9]{8,20}`. */
  lemma ReportedKeyIsWellFormed(api: ApiOutcome)
    requires ApiNotice(api).KeyReady?
    ensures KeyPatternMatches(ApiNotice(api).key)
    ensures "key" !in api.body ==> StrictKeyFormat(ApiNotice(api).key)
  {
    var body := api.body;
    if "key" !in body {
      ScannedKeyShape(body);
      TokenPatternIsStrict(ApiNotice(api).key, NotAmpOrSpace);
    }
  }

  /** With the `key` field present, a key followed by one newline is still reported
      (Python's `$`), newline included. */
  lemma TrailingNewlineAccepted()
    ensures ApiNotice(Answered(map["key" := Str("abcd1234\n")])) == KeyReady("abcd1234\n")
  {
    assert StrictKeyFormat("abcd1234");
    assert "abcd1234\n"[..8] == "abcd1234";
  }

  /** The messages sent for one key request after the rate-limit decision `a`. */
  function KeyGenerationMessages(chat: int, a: Admission, api: ApiOutcome): (sent: seq<Outgoing>)
    ensures forall i :: 0 <= i < |sent| ==> sent[i].chat == chat
    ensures a.Throttled? ==> sent == [Outgoing(chat, PleaseWait(a.wait))]
    ensures a.Admitted? ==> |sent| == 2 && sent[0].notice == Generating && sent[1].notice == ApiNotice(api)
  {
    match a
    case Throttled(w) => [Outgoing(chat, PleaseWait(w))]
    case Admitted => [Outgoing(chat, Generating), Outgoing(chat, ApiNotice(api))]
  }

  // ---------------------------------------------------------------- webhook

  datatype Command = StartCommand | HelpCommand | KeyCommand | Unrecognised

  /** Exact-match routing of a message's `text` (any JSON value; only strings can match). */
  function Route(text: Value): (c: Command)
    ensures c == StartCommand <==> text == Str("/start")
    ensures c == HelpCommand <==> text == Str("/help")
    ensures c == KeyCommand <==> text == Str("/generate") || text == Str("/key")
  {
    if text == Str("/start") then StartCommand
    else if text == Str("/help") then HelpCommand
    else if text in [Str("/generate"), Str("/key")] then KeyCommand
    else Unrecognised
  }

  /** A chat message: `chat` and `from` are absent (outer `None`), present without
      an `id` (inner `None`), or carry the id; `text` is optional. */
  datatype IncomingMessage =
    IncomingMessage(chat: Option<Option<int>>, sender: Option<Option<int>>, text: Option<Value>)

  datatype Update = Update(message: Option<IncomingMessage>)

  /** The webhook's request: a JSON update, or a body that `get_json` could not turn into one. */
  datatype WebhookRequest = Unreadable(reason: string) | Delivered(update: Update)

  /** What the webhook does besides answering: nothing, one reply, or a key request. */
  datatype Action = NoAction | Reply(chat: int, notice: Notice) | GenerateFor(chat: int, user: int)

  datatype WebhookPlan = WebhookPlan(reply: HttpReply, action: Action)

  const OkReply: HttpReply := HttpReply(200, map["ok" := Bool(true)])

  const TokenMissingReply: HttpReply := HttpReply(500, map["error" := Str("Bot token not configured")])

  function FaultReply(message: string): HttpReply {
    HttpReply(500, map["error" := Str(message)])
  }

  /** `str(KeyError(name))`. */
  function KeyErrorMessage(name: string): string {
    "'" + name + "'"
  }

  /** A bot token is configured when it is set and not empty. */
  predicate TokenSet(token: Option<string>) {
    token.Some? && token.value != ""
  }

  function CommandAction(c: Command, chat: int, user: int): Action {
    match c
    case StartCommand => Reply(chat, Welcome)
    case HelpCommand => Reply(chat, HelpText)
    case KeyCommand => GenerateFor(chat, user)
    case Unrecognised => Reply(chat, NotUnderstood)
  }

  /** The webhook's decisions: the token check first, then `chat.id` and `from.id`
      are read (a missing one is a KeyError), and only then `text` is routed. */
  function PlanWebhook(configured: bool, request: WebhookRequest): (p: WebhookPlan)
    ensures !configured ==> p == WebhookPlan(TokenMissingReply, NoAction)
    ensures p.reply.status == 200 <==> p.reply == OkReply
    ensures p.reply.status != 200 ==> p.reply.status == 500 && p.action == NoAction
    ensures p.action.GenerateFor? <==>
      configured && request.Delivered? && request.update.message.Some? &&
      var msg := request.update.message.value;
      msg.chat.Some? && msg.chat.value.Some? && msg.sender.Some? && msg.sender.value.Some? &&
      msg.text.Some? && Route(msg.text.value) == KeyCommand &&
      p.action == GenerateFor(msg.chat.value.value, msg.sender.value.value)
    ensures configured && request.Unreadable? ==> p == WebhookPlan(FaultReply(request.reason), NoAction)
    ensures configured && request.Delivered? && request.update.message.None? ==> p == WebhookPlan(OkReply, NoAction)
    ensures configured && request.Delivered? && request.update.message.Some? ==>
      var msg := request.update.message.value;
      && (msg.chat.None? ==> p == WebhookPlan(FaultReply(KeyErrorMessage("chat")), NoAction))
      && (msg.chat == Some(None) ==> p == WebhookPlan(FaultReply(KeyErrorMessage("id")), NoAction))
      && (msg.chat.Some? && msg.chat.value.Some? ==>
            && (msg.sender.None? ==> p == WebhookPlan(FaultReply(KeyErrorMessage("from")), NoAction))
            && (msg.sender == Some(None) ==> p == WebhookPlan(FaultReply(KeyErrorMessage("id")), NoAction))
            && (msg.sender.Some? && msg.sender.value.Some? ==>
                  p == WebhookPlan(OkReply, if msg.text.None? then NoAction
                                             else CommandAction(Route(msg.text.value), msg.chat.value.value,
                                                                msg.sender.value.value))))
  {
    if !configured then WebhookPlan(TokenMissingReply, NoAction)
    else
      match request
      case Unreadable(reason) => WebhookPlan(FaultReply(reason), NoAction)
      case Delivered(update) =>
        match update.message
        case None => WebhookPlan(OkReply, NoAction)
        case Some(msg) =>
          match msg.chat
          case None => WebhookPlan(FaultReply(KeyErrorMessage("chat")), NoAction)
          case Some(None) => WebhookPlan(FaultReply(KeyErrorMessage("id")), NoAction)
          case Some(Some(chat)) =>
            match msg.sender
            case None => WebhookPlan(FaultReply(KeyErrorMessage("from")), NoAction)
            case Some(None) => WebhookPlan(FaultReply(KeyErrorMessage("id")), NoAction)
            case Some(Some(user)) =>
              match msg.text
              case None => WebhookPlan(OkReply, NoAction)
              case Some(text) => WebhookPlan(OkReply, CommandAction(Route(text), chat, user))
  }

  /** What each text leads to: `/start` the welcome, `/help` the help text, exactly
      `/generate` or `/key` a key request for the sender, anything else (a non-string
      included) the "not understood" reply, always to the message's chat. */
  lemma CommandReplies(text: Value, chat: int, user: int)
    ensures CommandAction(Route(text), chat, user) ==
      if text == Str("/start") then Reply(chat, Welcome)
      else if text == Str("/help") then Reply(chat, HelpText)
      else if text == Str("/generate") || text == Str("/key") then GenerateFor(chat, user)
      else Reply(chat, NotUnderstood)
  {
  }

  /** A message without `text` sends nothing and is still answered `ok`. */
  lemma NoTextNoAction(chat: int, user: int)
    ensures PlanWebhook(true, Delivered(Update(Some(IncomingMessage(Some(Some(chat)), Some(Some(user)), None)))))
         == WebhookPlan(OkReply, NoAction)
  {
  }

  /** The global state of the webhook service: the bot token and the per-user
      table of last admitted request times. */
  class KeyBot {
    const botToken: Option<string>
    var userLastRequest: map<int, real>

    constructor (token: Option<string>)
      ensures botToken == token && userLastRequest == map[]
    {
      botToken := token;
      userLastRequest := map[];
    }

    /** `/generate` and `/key`: the rate-limit check and update, then the API call. */
    method HandleKeyGeneration(chat: int, user: int, now: real, api: ApiOutcome) returns (sent: seq<Outgoing>)
      modifies this
      ensures userLastRequest == Recorded(old(userLastRequest), user, now)
      ensures sent == KeyGenerationMessages(chat, Admit(LastSeen(old(userLastRequest), user), now), api)
    {
      var lastRequestTime := if user in userLastRequest then userLastRequest[user] else 0.0;
      userLastRequest := userLastRequest[user := lastRequestTime];
      var timeDiff := now - lastRequestTime;
      if timeDiff < RateLimitSeconds as real {
        var waitTime := Trunc(RateLimitSeconds as real - timeDiff);
        sent := [Outgoing(chat, PleaseWait(waitTime))];
        return;
      }
      userLastRequest := userLastRequest[user := now];
      sent := [Outgoing(chat, Generating), Outgoing(chat, ApiNotice(api))];
    }

    /** `POST /`: answer a Telegram update, running the command it carries. */
    method Webhook(request: WebhookRequest, now: real, api: ApiOutcome) returns (reply: HttpReply, sent: seq<Outgoing>)
      modifies this
      ensures reply == PlanWebhook(TokenSet(botToken), request).reply
      ensures match PlanWebhook(TokenSet(botToken), request).action
        case NoAction => sent == [] && userLastRequest == old(userLastRequest)
        case Reply(chat, notice) => sent == [Outgoing(chat, notice)] && userLastRequest == old(userLastRequest)
        case GenerateFor(chat, user) =>
          && userLastRequest == Recorded(old(userLastRequest), user, now)
          && sent == KeyGenerationMessages(chat, Admit(LastSeen(old(userLastRequest), user), now), api)
    {
      var plan := PlanWebhook(TokenSet(botToken), request);
      reply := plan.reply;
      match plan.action
      case NoAction =>
        sent := [];
      case Reply(chat, notice) =>
        sent := [Outgoing(chat, notice)];
      case GenerateFor(chat, user) =>
        sent := HandleKeyGeneration(chat, user, now, api);
    }
  }
}
