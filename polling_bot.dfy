/** The long-polling chat bot: `/generate` asks the key API for a key and shows
    whatever truthy key the answer yields, without checking its format. */
module PollingBot {
  import opened PyJson
  import opened KeyScan
  import opened KeyExtraction

  /** The texts the bot shows: the first reply, and what that reply is edited to. */
  datatype BotText =
    | Generating
    | KeyShown(key: Value)
    | NoKeyFound
    | NetworkError
    | Failed(detail: string)

  /** `generate_key`: first "Generating your key...", then that message edited to the
      outcome. Every `requests` exception, a timeout included, reads as a network
      error; any other exception is shown with its text. */
  function GenerateKey(api: ApiOutcome): (shown: seq<BotText>)
    ensures |shown| == 2 && shown[0] == Generating
    ensures shown[1].KeyShown? <==>
      api.Answered? && ExtractKey(api.body).Returns? &&
      ExtractKey(api.body).value.Some? && Truthy(ExtractKey(api.body).value.value)
    ensures shown[1].KeyShown? ==> Truthy(shown[1].key) && ExtractKey(api.body) == Returns(Some(shown[1].key))
    ensures shown[1] == NetworkError <==> !api.Answered?
    ensures shown[1].Failed? <==> api.Answered? && ExtractKey(api.body).Raises?
    ensures shown[1].Failed? ==> shown[1].detail == ExtractKey(api.body).message
    ensures shown[1] == NoKeyFound <==>
      api.Answered? && ExtractKey(api.body).Returns? &&
      !(ExtractKey(api.body).value.Some? && Truthy(ExtractKey(api.body).value.value))
    ensures shown[1] != Generating
  {
    var final :=
      match api
      case TimedOut => NetworkError
      case RequestFailed => NetworkError
      case Answered(body) =>
        match ExtractKey(body)
        case Raises(e) => Failed(e)
        case Returns(candidate) =>
          if candidate.Some? && Truthy(candidate.value) then KeyShown(candidate.value) else NoKeyFound;
    [Generating, final]
  }

  /** An empty `key` field counts as no key. */
  lemma EmptyKeyIsNoKey()
    ensures GenerateKey(Answered(map["key" := Str("")]))[1] == NoKeyFound
  {
  }

  /** Any non-empty `key=` token of `failed_url` is shown, `%` and `=` included. */
  lemma UncheckedTokenShown()
    ensures GenerateKey(Answered(map["failed_url" := Str("key=a%b=")]))[1] == KeyShown(Str("a%b="))
  {
    var s := "key=a%b=";
    assert s[0..4] == Marker;
    assert MatchAt(s, 0, NotAmpOrSpace);
    assert FirstMatch(s, NotAmpOrSpace) == Some(0);
    var t := Search(s, NotAmpOrSpace).value;
    assert IsMaximalRun(s, 4, t, NotAmpOrSpace);
    assert |t| == 4;
    assert t == s[4..8] == "a%b=";
  }
}
