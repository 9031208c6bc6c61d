/**
 * The two outbound calls of the service, with their network I/O given as
 * outcomes: `fetch_abi_from_etherscan` (the metadata provider) and
 * `call_claude_api` (the text generator). What is modelled is how each maps
 * an already-received value to a `Result`.
 */
module Services {
  import opened Wrappers
  import opened Json
  import opened Text

  /**
   * The missing-key message. It is one string; it is written as the variable
   * name followed by the rest of the sentence because the verifier cannot
   * read single characters out of a string literal this long, and
   * `Endpoint.FailureKindsDisjoint` needs its first two characters.
   */
  const EtherscanKeyMissing: string := "ETHERSCAN_API_KEY" + " environment variable not set"
  const InvalidAbiFormat: string := "Invalid ABI response format"
  const UnknownAbiError: string := "Unknown error fetching ABI"
  const UnknownClaudeError: string := "Unknown error from Claude API"

  /** What the GET to the metadata provider produced: a send error, an unreadable body, or a JSON envelope. */
  datatype GetOutcome = GetFailed(sendError: string) | GetUnreadable(parseError: string) | GetReceived(envelope: Value)

  /** An HTTP status: its code and how it is displayed (code and reason phrase). */
  datatype StatusCode = StatusCode(code: int, shown: string)

  /** What the POST to the text generator produced: a send error, an unreadable body, or a status and body text. */
  datatype PostOutcome = PostFailed(sendError: string) | PostUnreadable(readError: string) | PostReceived(status: StatusCode, body: string)

  /** `StatusCode::is_success`: a 2xx code. */
  predicate IsSuccess(status: StatusCode)
  {
    200 <= status.code <= 299
  }

  /**
   * The envelope classifier: status "1" means the result string holds the ABI
   * as JSON text, which is parsed; any other status is an error carrying the
   * result string, or a default message when the result is not a string.
   */
  function ClassifyEnvelope(envelope: Value, parse: string -> Result<Value>): (r: Result<Value>)
    ensures r.Ok? <==> (envelope.Index("status") == Str("1") && envelope.Index("result").Str?
                        && parse(envelope.Index("result").s).Ok?)
    ensures r.Ok? ==> r == parse(envelope.Index("result").s)
    ensures envelope.Index("status") == Str("1") && !envelope.Index("result").Str? ==> r == Err(InvalidAbiFormat)
    ensures envelope.Index("status") == Str("1") && envelope.Index("result").Str? && parse(envelope.Index("result").s).Err? ==>
      r == Err("Failed to parse ABI JSON: " + parse(envelope.Index("result").s).msg)
    ensures envelope.Index("status") != Str("1") ==>
      r == Err(if envelope.Index("result").Str? then envelope.Index("result").s else UnknownAbiError)
  {
    if envelope.Index("status") == Str("1") then
      match envelope.Index("result").AsStr()
      case None => Err(InvalidAbiFormat)
      case Some(abiStr) =>
        match parse(abiStr)
        case Ok(abi) => Ok(abi)
        case Err(e) => Err("Failed to parse ABI JSON: " + e)
    else
      Err(envelope.Index("result").AsStr().GetOr(UnknownAbiError))
  }

  /**
   * `fetch_abi_from_etherscan` with the GET given: the key is re-checked, the
   * two transport failures get their own prefixes, then the envelope is classified.
   */
  function FetchAbi(address: string, etherscanKey: Option<string>,
                    get: (string, string) -> GetOutcome, parse: string -> Result<Value>): (r: Result<Value>)
    ensures etherscanKey.None? ==> r == Err(EtherscanKeyMissing)
    ensures etherscanKey.Some? && get(address, etherscanKey.value).GetFailed? ==>
      r == Err("Failed to fetch ABI: " + get(address, etherscanKey.value).sendError)
    ensures etherscanKey.Some? && get(address, etherscanKey.value).GetUnreadable? ==>
      r == Err("Failed to parse ABI response: " + get(address, etherscanKey.value).parseError)
    ensures etherscanKey.Some? && get(address, etherscanKey.value).GetReceived? ==>
      r == ClassifyEnvelope(get(address, etherscanKey.value).envelope, parse)
  {
    match etherscanKey
    case None => Err(EtherscanKeyMissing)
    case Some(key) =>
      match get(address, key)
      case GetFailed(e) => Err("Failed to fetch ABI: " + e)
      case GetUnreadable(e) => Err("Failed to parse ABI response: " + e)
      case GetReceived(envelope) => ClassifyEnvelope(envelope, parse)
  }

  /**
   * The completion extractor: a non-success status is an error with the
   * status and the raw body, decided before any parsing; otherwise a present
   * "completion" string is returned trimmed, and if it is absent the error
   * carries the body's "error"."message" or a default.
   */
  function ClassifyCompletion(status: StatusCode, body: string, parse: string -> Result<Value>): (r: Result<string>)
    ensures !IsSuccess(status) ==> r == Err("Claude API returned error status " + status.shown + ": " + body)
    ensures IsSuccess(status) && parse(body).Err? ==> r == Err("Failed to parse Claude API response: " + parse(body).msg)
    ensures r.Ok? <==> IsSuccess(status) && parse(body).Ok? && parse(body).value.Index("completion").Str?
    ensures r.Ok? ==> r.value == Trim(parse(body).value.Index("completion").s)
    ensures IsSuccess(status) && parse(body).Ok? && !parse(body).value.Index("completion").Str? ==>
      var json := parse(body).value;
      r == Err("Invalid response from Claude API: 'completion' field missing. Error message: "
               + StrOrDefault(json.Index("error").Index("message"), UnknownClaudeError))
  {
    if !IsSuccess(status) then
      Err("Claude API returned error status " + status.shown + ": " + body)
    else
      match parse(body)
      case Err(e) => Err("Failed to parse Claude API response: " + e)
      case Ok(json) =>
        match json.Index("completion").AsStr()
        case Some(completion) => Ok(Trim(completion))
        case None =>
          var errorMessage := StrOrDefault(json.Index("error").Index("message"), UnknownClaudeError);
          Err("Invalid response from Claude API: 'completion' field missing. Error message: " + errorMessage)
  }

  /** The text actually sent: an empty system part, the human turn holding the prompt, the assistant marker. */
  function FormatPrompt(prompt: string): string
  {
    "" + "\n\nHuman: " + prompt + "\n\nAssistant:"
  }

  /** The prompt is sent unchanged, between the human marker and the assistant marker. */
  lemma FormatPromptShape(prompt: string)
    ensures StartsWith(FormatPrompt(prompt), "\n\nHuman: ")
    ensures OccursAt(FormatPrompt(prompt), 9, prompt)
    ensures EndsWith(FormatPrompt(prompt), "\n\nAssistant:")
    ensures |FormatPrompt(prompt)| == |prompt| + 21
  {
    var p := FormatPrompt(prompt);
    assert p == "\n\nHuman: " + prompt + "\n\nAssistant:";
    assert p[..9] == "\n\nHuman: ";
    assert p[9..9 + |prompt|] == prompt;
    assert p[|p| - 12..] == "\n\nAssistant:";
  }

  /** `call_claude_api` with the POST given: transport failures, then the classification of the reply. */
  function CallClaude(prompt: string, apiKey: string,
                      post: (string, string) -> PostOutcome, parse: string -> Result<Value>): (r: Result<string>)
    ensures post(FormatPrompt(prompt), apiKey).PostFailed? ==>
      r == Err("Failed to call Claude API: " + post(FormatPrompt(prompt), apiKey).sendError)
    ensures post(FormatPrompt(prompt), apiKey).PostUnreadable? ==>
      r == Err("Failed to read Claude API response: " + post(FormatPrompt(prompt), apiKey).readError)
    ensures post(FormatPrompt(prompt), apiKey).PostReceived? ==>
      var reply := post(FormatPrompt(prompt), apiKey);
      r == ClassifyCompletion(reply.status, reply.body, parse)
  {
    match post(FormatPrompt(prompt), apiKey)
    case PostFailed(e) => Err("Failed to call Claude API: " + e)
    case PostUnreadable(e) => Err("Failed to read Claude API response: " + e)
    case PostReceived(status, body) => ClassifyCompletion(status, body, parse)
  }

  /** A completion handed back is always trimmed at both ends. */
  lemma CompletionIsTrimmed(status: StatusCode, body: string, parse: string -> Result<Value>)
    ensures var r := ClassifyCompletion(status, body, parse);
      r.Ok? ==> Trimmed(r.value) && Trim(r.value) == r.value
  {
    var r := ClassifyCompletion(status, body, parse);
    if r.Ok? {
      var c := parse(body).value.Index("completion").s;
      TrimIsInnerSlice(c);
      TrimIdempotent(c);
    }
  }

  /** The same holds for the whole call: a successful answer has no surrounding whitespace. */
  lemma CallClaudeIsTrimmed(prompt: string, apiKey: string, post: (string, string) -> PostOutcome,
                            parse: string -> Result<Value>)
    ensures var r := CallClaude(prompt, apiKey, post, parse);
      r.Ok? ==> Trimmed(r.value)
  {
    var reply := post(FormatPrompt(prompt), apiKey);
    if reply.PostReceived? {
      CompletionIsTrimmed(reply.status, reply.body, parse);
    }
  }
}
