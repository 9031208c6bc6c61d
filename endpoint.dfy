/**
 * The request handler of `POST /clear-sign-ai` (`clear_sign_ai_endpoint`)
 * with its I/O abstracted: the two environment lookups are optional keys,
 * the network calls and the two serde_json calls are given functions.
 */
module Endpoint {
  import opened Wrappers
  import opened Json
  import opened Text
  import opened Abi
  import opened Prompt
  import opened Services

  const ClaudeKeyMissing: string := "CLAUDE_API_KEY environment variable not set"

  /** The request body: the contract address and an optional ABI. */
  datatype InputData = InputData(contractAddress: string, abi: Option<Value>)

  /** The two environment variables as they are at request time. */
  datatype Env = Env(claudeKey: Option<string>, etherscanKey: Option<string>)

  /** The outside world the handler talks to. */
  datatype World = World(
    get: (string, string) -> GetOutcome,     // GET to the metadata provider, by address and key
    post: (string, string) -> PostOutcome,   // POST to the text generator, by formatted prompt and key
    parse: string -> Result<Value>,          // serde_json::from_str
    pretty: Value -> Option<string>)         // serde_json::to_string_pretty

  /** 200 with `{"markdown": ...}`, or 500 with a plain-text body. */
  datatype Response = Markdown(markdown: string) | InternalServerError(body: string)

  /** The prompt the handler builds for an ABI. */
  function PromptFor(address: string, abi: Value, pretty: Value -> Option<string>): string
  {
    PromptText(SourceWording, ExtractFunctions(abi), address, AbiText(pretty, abi))
  }

  /** The ABI the handler works on: the supplied one verbatim, or the fetched one. */
  function ResolveAbi(req: InputData, env: Env, world: World): (r: Result<Value>)
    ensures req.abi.Some? ==> r == Ok(req.abi.value)
    ensures req.abi.None? ==> r == FetchAbi(req.contractAddress, env.etherscanKey, world.get, world.parse)
  {
    match req.abi
    case Some(abi) => Ok(abi)
    case None => FetchAbi(req.contractAddress, env.etherscanKey, world.get, world.parse)
  }

  /** The handler: key checks, ABI resolution, prompt construction, generation. */
  function Handle(req: InputData, env: Env, world: World): Response
  {
    match env.claudeKey
    case None => InternalServerError(ClaudeKeyMissing)
    case Some(claudeKey) =>
      if req.abi.None? && env.etherscanKey.None? then
        InternalServerError(EtherscanKeyMissing)
      else
        match ResolveAbi(req, env, world)
        case Err(err) => InternalServerError("Error fetching ABI: " + err)
        case Ok(abi) =>
          match CallClaude(PromptFor(req.contractAddress, abi, world.pretty), claudeKey, world.post, world.parse)
          case Ok(markdown) => Markdown(markdown)
          case Err(err) => InternalServerError("Error: " + err)
  }

  /** Without the Claude key the answer is the fixed error, whatever the request and the world. */
  lemma MissingClaudeKey(req: InputData, env: Env, world: World)
    requires env.claudeKey.None?
    ensures Handle(req, env, world) == InternalServerError(ClaudeKeyMissing)
  {
  }

  /** With the Claude key but no ABI and no Etherscan key the answer is the other fixed error. */
  lemma MissingEtherscanKey(req: InputData, env: Env, world: World)
    requires env.claudeKey.Some? && req.abi.None? && env.etherscanKey.None?
    ensures Handle(req, env, world) == InternalServerError(EtherscanKeyMissing)
  {
  }

  /**
   * A supplied ABI is used unchanged: the answer does not depend on the
   * metadata provider or on the Etherscan key, and it is the generator's
   * answer to the prompt built from that very ABI.
   */
  lemma SuppliedAbiSkipsFetch(req: InputData, env: Env, env': Env, world: World, world': World)
    requires req.abi.Some? && env.claudeKey.Some? && env'.claudeKey == env.claudeKey
    requires world'.post == world.post && world'.parse == world.parse && world'.pretty == world.pretty
    ensures Handle(req, env, world) == Handle(req, env', world')
    ensures Handle(req, env, world) ==
      match CallClaude(PromptFor(req.contractAddress, req.abi.value, world.pretty), env.claudeKey.value, world.post, world.parse)
      case Ok(markdown) => Markdown(markdown)
      case Err(err) => InternalServerError("Error: " + err)
  {
  }

  /** A failed fetch is reported with its own prefix and the fetch's message. */
  lemma FetchFailureReported(req: InputData, env: Env, world: World)
    requires env.claudeKey.Some? && env.etherscanKey.Some? && req.abi.None?
    requires FetchAbi(req.contractAddress, env.etherscanKey, world.get, world.parse).Err?
    ensures Handle(req, env, world) ==
      InternalServerError("Error fetching ABI: " + FetchAbi(req.contractAddress, env.etherscanKey, world.get, world.parse).msg)
  {
  }

  /**
   * A provider envelope whose status is not "1" ends the request with the
   * provider's own message, such as a rate-limit notice.
   */
  lemma ProviderFailureSurfaces(req: InputData, env: Env, world: World, message: string)
    requires env.claudeKey.Some? && env.etherscanKey.Some? && req.abi.None?
    requires var reply := world.get(req.contractAddress, env.etherscanKey.value);
      reply.GetReceived? && reply.envelope.Index("status") != Str("1") && reply.envelope.Index("result") == Str(message)
    ensures Handle(req, env, world) == InternalServerError("Error fetching ABI: " + message)
  {
  }

  /** A non-success HTTP status from the generator is reported with the status and the raw body. */
  lemma GeneratorStatusSurfaces(req: InputData, env: Env, world: World, abi: Value)
    requires env.claudeKey.Some? && ResolveAbi(req, env, world) == Ok(abi)
    requires req.abi.None? ==> env.etherscanKey.Some?
    requires var reply := world.post(FormatPrompt(PromptFor(req.contractAddress, abi, world.pretty)), env.claudeKey.value);
      reply.PostReceived? && !IsSuccess(reply.status)
    ensures var reply := world.post(FormatPrompt(PromptFor(req.contractAddress, abi, world.pretty)), env.claudeKey.value);
      Handle(req, env, world) ==
        InternalServerError("Error: " + ("Claude API returned error status " + reply.status.shown + ": " + reply.body))
  {
  }

  /** Any failure of the generation call, whatever its cause, is passed through behind "Error: ". */
  lemma GenerationFailureReported(req: InputData, env: Env, world: World, abi: Value)
    requires env.claudeKey.Some? && ResolveAbi(req, env, world) == Ok(abi)
    requires req.abi.None? ==> env.etherscanKey.Some?
    requires CallClaude(PromptFor(req.contractAddress, abi, world.pretty), env.claudeKey.value, world.post, world.parse).Err?
    ensures Handle(req, env, world) == InternalServerError(
      "Error: " + CallClaude(PromptFor(req.contractAddress, abi, world.pretty), env.claudeKey.value, world.post, world.parse).msg)
  {
  }

  /** A completion from the generator becomes the markdown answer, trimmed. */
  lemma CompletionAnswered(req: InputData, env: Env, world: World, abi: Value, completion: string)
    requires env.claudeKey.Some? && ResolveAbi(req, env, world) == Ok(abi)
    requires req.abi.None? ==> env.etherscanKey.Some?
    requires var reply := world.post(FormatPrompt(PromptFor(req.contractAddress, abi, world.pretty)), env.claudeKey.value);
      && reply.PostReceived? && IsSuccess(reply.status)
      && world.parse(reply.body).Ok? && world.parse(reply.body).value.Index("completion") == Str(completion)
    ensures Handle(req, env, world) == Markdown(Trim(completion))
  {
  }

  /** Every successful answer is trimmed at both ends. */
  lemma AnswerIsTrimmed(req: InputData, env: Env, world: World)
    ensures Handle(req, env, world).Markdown? ==> Trimmed(Handle(req, env, world).markdown)
  {
    if env.claudeKey.Some? && ResolveAbi(req, env, world).Ok? {
      var abi := ResolveAbi(req, env, world).value;
      CallClaudeIsTrimmed(PromptFor(req.contractAddress, abi, world.pretty), env.claudeKey.value, world.post, world.parse);
    }
  }

  /** Every failure body is of exactly one of four kinds: the two key errors, a fetch error, a generation error. */
  lemma FailureKinds(req: InputData, env: Env, world: World)
    ensures Handle(req, env, world).InternalServerError? ==>
      var body := Handle(req, env, world).body;
      body == ClaudeKeyMissing || body == EtherscanKeyMissing
      || StartsWith(body, "Error fetching ABI: ") || StartsWith(body, "Error: ")
  {
    var r := Handle(req, env, world);
    if r.InternalServerError? && r.body != ClaudeKeyMissing && r.body != EtherscanKeyMissing {
      match ResolveAbi(req, env, world)
      case Err(e) => Prompt.Starts("Error fetching ABI: ", e);
      case Ok(abi) =>
        var e := CallClaude(PromptFor(req.contractAddress, abi, world.pretty), env.claudeKey.value, world.post, world.parse).msg;
        Prompt.Starts("Error: ", e);
    }
  }

  /** The four kinds never overlap, so a body tells which stage failed. */
  lemma FailureKindsDisjoint(body: string)
    ensures !(body == ClaudeKeyMissing && body == EtherscanKeyMissing)
    ensures StartsWith(body, "Error fetching ABI: ") ==> body != ClaudeKeyMissing && body != EtherscanKeyMissing && !StartsWith(body, "Error: ")
    ensures StartsWith(body, "Error: ") ==> body != ClaudeKeyMissing && body != EtherscanKeyMissing
  {
    if StartsWith(body, "Error fetching ABI: ") {
      assert body[5] == ' ';
    }
    if StartsWith(body, "Error: ") {
      assert body[1] == 'r';
    }
    assert ClaudeKeyMissing[0] == 'C';
    assert EtherscanKeyMissing[0] == 'E';
    assert EtherscanKeyMissing[1] == 'T';
  }
}
