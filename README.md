# clear_sign_ai: a verified model of the request core

`clear_sign_ai` is a small HTTP service with one endpoint, `POST /clear-sign-ai`.
It takes a contract address and, optionally, the contract's ABI. When no ABI is supplied, it fetches one from the Etherscan metadata provider. It then:

- extracts every function entry of the ABI,
- builds a documentation prompt from those entries and the pretty-printed ABI,
- sends the prompt to the Claude text-completion API,
- answers with the trimmed completion as `{"markdown": ...}`, or with a 500 whose plain-text body says which stage failed.

The model is written in Dafny, with one module per concern:

- `Wrappers`: `Option` and `Result`.
- `Json`: a JSON value with serde_json's tolerant accessors.
  - `v["key"]` is `Null` for a missing key or a non-object.
  - `as_str` and `as_array` return `Option`.
- `Text`: prefix, suffix and infix predicates, and `str::trim`.
  - Trim strips Rust's `char::is_whitespace` set, which is the Unicode White_Space property, from both ends.
  - It is modelled as a forward scan and a backward scan over positions.
- `Abi`: `FunctionInfo` and `extract_functions_info`.
  - The source's loop is a method, `ExtractFunctionsInfo`.
  - It is proved equal to a recursive specification, `ExtractFunctions`.
  - That specification is then described by an independent index function, `FunctionIndices`.
- `Prompt`: `create_prompt`.
  - The source's appends are methods: `BuildPrompt`, with nested loops split into `PushParameters` and `PushReturns`.
  - They are proved equal to the specification `PromptText`.
  - The fixed texts are a `Wording` record. `SourceWording` holds the source's literals, and the shape lemmas hold for any wording.
- `Services`: the parts of `fetch_abi_from_etherscan` and `call_claude_api` that follow the network calls. The GET and POST outcomes and the two serde calls are parameters.
- `Endpoint`: the decision flow of `clear_sign_ai_endpoint`, as a pure function `Handle` of the request, the environment (two optional keys) and the world (network and serde functions). Lemmas state each path through it.

## Model

| member | source | states |
|---|---|---|
| Json.Value.Index | clear_sign_ai/src/main.rs:89-90 | indexing a non-object or a missing key gives `Null`; otherwise it gives the value of the first binding of the key |
| Json.Lookup | clear_sign_ai/src/main.rs:110-111 | in an association list, a key's first binding is found, and an unbound key gives `Null` |
| Json.Value.AsStr | clear_sign_ai/src/main.rs:111 | `as_str` is `Some` exactly for string values, and is then their text |
| Json.Value.AsArray | clear_sign_ai/src/main.rs:108 | `as_array` is `Some` exactly for array values, and is then their elements |
| Json.StrOrDefault | clear_sign_ai/src/main.rs:248-251 | `as_str().unwrap_or(d)` is the string, or `d` when the value is missing or not a string |
| Json.StrOrEmpty | clear_sign_ai/src/main.rs:111 | a field read with `unwrap_or("")` is the string, or `""` when the field is missing or not a string |
| Json.ArrayOrEmpty | clear_sign_ai/src/main.rs:112 | a list read with `unwrap_or(&empty_vec)` is the array, or empty when the field is missing or not an array |
| Abi.IsFunctionEntry | clear_sign_ai/src/main.rs:110 | no ensures: the test `item["type"] == "function"`, which holds only for the string value `"function"`; `FunctionIndices` and its lemmas state which entries pass it |
| Abi.Params | clear_sign_ai/src/main.rs:113-120 | no ensures: the inputs mapped to (type, name) pairs; `SummarizeFields` states its length, contents and order |
| Abi.ReturnTypes | clear_sign_ai/src/main.rs:122-128 | no ensures: the outputs mapped to their types; `SummarizeFields` states its length, contents and order |
| Abi.Summarize | clear_sign_ai/src/main.rs:111-133 | no ensures: the summary of one function entry; `SummarizeFields` states its defaults and contents |
| Abi.SummarizeFields | clear_sign_ai/src/main.rs:111-133 | one entry's summary: the name, or `""` when missing or not a string; empty lists when `inputs`/`outputs` are missing or not arrays; otherwise one (type, name) pair per input and one type per output, same length and same order |
| Abi.FunctionIndices | clear_sign_ai/src/main.rs:108-110 | every listed position is in range and holds an entry whose `"type"` is the string `"function"` |
| Abi.FunctionIndicesIncreasing | clear_sign_ai/src/main.rs:109-110 | the listed positions strictly increase, which is the array's order |
| Abi.FunctionIndicesComplete | clear_sign_ai/src/main.rs:109-110 | the position of every function entry is listed |
| Abi.NoFunctionIndices | clear_sign_ai/src/main.rs:109-110 | an array without function entries has no listed positions |
| Abi.AllFunctionIndices | clear_sign_ai/src/main.rs:109-110 | in an array made only of function entries, every position is listed, in order |
| Abi.Extracted | clear_sign_ai/src/main.rs:109-135 | no ensures: what the loop has pushed after visiting a prefix of the array; `ExtractedSelectsFunctionEntries` and `ExtractedAppend` describe it |
| Abi.ExtractFunctions | clear_sign_ai/src/main.rs:104-138 | no ensures: the extractor as a value; `ExtractFunctionsInfo`, `NoFunctionEntriesNoSummaries` and `AllFunctionEntriesAllSummarized` state its result |
| Abi.ExtractFunctionsInfo | clear_sign_ai/src/main.rs:104-138 | the loop produces exactly the specification `ExtractFunctions(abi)`, and produces nothing for a non-array ABI; it has no failure path |
| Abi.ExtractedSelectsFunctionEntries | clear_sign_ai/src/main.rs:108-135 | the result has exactly one summary per function entry, in the entries' order, with duplicates kept; every other entry is skipped |
| Abi.ExtractedAppend | clear_sign_ai/src/main.rs:109-134 | extraction over a concatenation of entry lists is the concatenation of the extractions |
| Abi.NoFunctionEntriesNoSummaries | clear_sign_ai/src/main.rs:104-110 | a non-array ABI, or an array without any function entry, gives the empty result |
| Abi.AllFunctionEntriesAllSummarized | clear_sign_ai/src/main.rs:108-135 | an array made only of function entries gives one summary per entry, position for position |
| Prompt.AbiText | clear_sign_ai/src/main.rs:145 | no ensures: the pretty-printed ABI, or `""` when printing fails; `CreatePrompt` places it in the prompt |
| Prompt.ParamLine | clear_sign_ai/src/main.rs:168-172 | no ensures: one parameter line; `SourceLines` spells it out under the source's literals |
| Prompt.ReturnLine | clear_sign_ai/src/main.rs:180-182 | no ensures: one return line; `SourceLines` spells it out under the source's literals |
| Prompt.ParametersBlock | clear_sign_ai/src/main.rs:163-174 | no ensures: a function's Parameters block; `ParametersBlockLines` and `PushParameters` state it |
| Prompt.ReturnsBlock | clear_sign_ai/src/main.rs:175-184 | no ensures: a function's Returns block; `ReturnsBlockLines` and `PushReturns` state it |
| Prompt.FunctionBlock | clear_sign_ai/src/main.rs:160-184 | no ensures: one function's name line followed by its two blocks; `FunctionListAt` places it in the list |
| Prompt.FunctionList | clear_sign_ai/src/main.rs:159-185 | no ensures: all function blocks in order; `FunctionListAt` and `ConcatMapAppend` describe it |
| Prompt.Header | clear_sign_ai/src/main.rs:148-157 | no ensures: the fixed instructions around the address, up to the Functions heading; `PromptShape` states how the prompt starts |
| Prompt.PromptText | clear_sign_ai/src/main.rs:147-193 | no ensures: the prompt as a value; `BuildPrompt` and `CreatePrompt` are proved equal to it, and `PromptShape` and `PromptWithoutFunctions` state its shape |
| Prompt.CreatePrompt | clear_sign_ai/src/main.rs:140-194 | the prompt is the specification text under the source's literals, with the pretty-printed ABI, or `""` when printing fails |
| Prompt.BuildPrompt | clear_sign_ai/src/main.rs:147-193 | the appends in order, including the per-function loop, build exactly `PromptText` |
| Prompt.PushParameters | clear_sign_ai/src/main.rs:164-174 | the Parameters appends add exactly the Parameters block to the prompt so far |
| Prompt.PushReturns | clear_sign_ai/src/main.rs:176-184 | the Returns appends add exactly the Returns block to the prompt so far |
| Prompt.ParametersBlockLines | clear_sign_ai/src/main.rs:163-174 | the Parameters block is the None line when there are no inputs; otherwise input k's `type name` line stands between the lines of the inputs before it and after it |
| Prompt.ReturnsBlockLines | clear_sign_ai/src/main.rs:175-184 | the Returns block is the None line when there are no outputs; otherwise output k's `type` line stands between the lines of the outputs before it and after it |
| Prompt.SourceLines | clear_sign_ai/src/main.rs:157-182 | under the source's literals, an empty list's block is `"    - None\n"`, a parameter line is ``"    - `type name`\n"``, a return line is ``"    - `type`\n"``, and the heading is `"**Functions**:\n"` |
| Prompt.FunctionListAt | clear_sign_ai/src/main.rs:159-185 | function k's block stands after the blocks of the functions before it and before those after it |
| Prompt.ConcatMapAppend | clear_sign_ai/src/main.rs:159-185 | the per-element concatenation of the loops distributes over appending elements |
| Prompt.PromptShape | clear_sign_ai/src/main.rs:147-193 | the prompt starts with the role line, the request and the address; the Functions heading is immediately followed by the function blocks and then the ABI heading; the ABI text sits inside the json fence; the prompt ends with the closing instruction |
| Prompt.PromptWithoutFunctions | clear_sign_ai/src/main.rs:157-187 | with no functions, the Functions heading and the ABI heading are adjacent |
| Text.SkipForward | clear_sign_ai/src/main.rs:246 | the forward scan passes only whitespace and stops at the first non-whitespace character or at the end |
| Text.SkipBackward | clear_sign_ai/src/main.rs:246 | the backward scan passes only whitespace and stops just after the last non-whitespace character or at the start |
| Text.SkipForwardStopsAt | clear_sign_ai/src/main.rs:246 | the forward scan's stopping point is unique |
| Text.SkipBackwardStopsAt | clear_sign_ai/src/main.rs:246 | the backward scan's stopping point is unique |
| Text.Trim | clear_sign_ai/src/main.rs:246 | no ensures: `str::trim` as trim-start then trim-end; `TrimIsInnerSlice` and `TrimOfPadded` characterise it in both directions |
| Text.TrimStart | clear_sign_ai/src/main.rs:246 | the result is a suffix of the input, everything dropped is whitespace, and it does not start with whitespace |
| Text.TrimEnd | clear_sign_ai/src/main.rs:246 | the result is a prefix of the input, everything dropped is whitespace, and it does not end with whitespace |
| Text.TrimIsInnerSlice | clear_sign_ai/src/main.rs:246 | trim returns a contiguous slice of the input, flanked by whitespace only, with no whitespace at either end |
| Text.TrimOfPadded | clear_sign_ai/src/main.rs:246 | conversely, a text with no whitespace at its ends, padded with whitespace on both sides, trims back to itself |
| Text.TrimEmptyIff | clear_sign_ai/src/main.rs:246 | trim gives the empty string exactly when the input is all whitespace |
| Text.TrimIdempotent | clear_sign_ai/src/main.rs:246 | trimming twice equals trimming once |
| Text.TrimHello | clear_sign_ai/src/main.rs:246 | trim of `"  Hello  "` is `"Hello"` |
| Services.ClassifyEnvelope | clear_sign_ai/src/main.rs:89-101 | the envelope classification succeeds exactly when status is `"1"`, the result is a string and it parses, and then it is the parsed ABI; status `"1"` with a non-string result gives `"Invalid ABI response format"`; a parse failure is prefixed `"Failed to parse ABI JSON: "`; any other status gives the result string, or `"Unknown error fetching ABI"` |
| Services.FetchAbi | clear_sign_ai/src/main.rs:68-101 | a missing key gives the fixed key error; a send failure and an unreadable body get their own prefixes; a received envelope is classified |
| Services.ClassifyCompletion | clear_sign_ai/src/main.rs:234-256 | a non-success status is an error with the status and the raw body, decided before parsing; a parse failure has its own prefix; the outcome is a success exactly when a `completion` string is present, and it is then trimmed; otherwise the error carries `error.message`, or `"Unknown error from Claude API"` |
| Services.IsSuccess | clear_sign_ai/src/main.rs:234 | no ensures: `is_success`, a status code from 200 to 299; `ClassifyCompletion` uses it |
| Services.FormatPrompt | clear_sign_ai/src/main.rs:200-204 | no ensures: the text actually sent; `FormatPromptShape` states it |
| Services.FormatPromptShape | clear_sign_ai/src/main.rs:200-204 | the sent text is the prompt unchanged, between the human marker and the assistant marker, 21 characters longer |
| Services.CallClaude | clear_sign_ai/src/main.rs:196-256 | a send failure and an unreadable body get their own prefixes; a received reply is classified by its status and body |
| Services.CompletionIsTrimmed | clear_sign_ai/src/main.rs:245-246 | a returned completion has no whitespace at either end and is a fixed point of trim |
| Services.CallClaudeIsTrimmed | clear_sign_ai/src/main.rs:196-256 | every successful call returns a trimmed text |
| Endpoint.Handle | clear_sign_ai/src/main.rs:21-66 | no ensures: the handler; the Endpoint lemmas below give its answer on every path: `MissingClaudeKey`, `MissingEtherscanKey`, `SuppliedAbiSkipsFetch`, `FetchFailureReported`, `GenerationFailureReported`, `CompletionAnswered` |
| Endpoint.PromptFor | clear_sign_ai/src/main.rs:50-53 | no ensures: the prompt built from the extracted functions, the address and the pretty-printed ABI |
| Endpoint.ResolveAbi | clear_sign_ai/src/main.rs:37-47 | a supplied ABI is used verbatim; otherwise the ABI is the outcome of the fetch |
| Endpoint.MissingClaudeKey | clear_sign_ai/src/main.rs:23-29 | without the Claude key the answer is the fixed Claude-key error, whatever the request and the world |
| Endpoint.MissingEtherscanKey | clear_sign_ai/src/main.rs:31-35 | with the Claude key but neither an ABI nor the Etherscan key, the answer is the fixed Etherscan-key error |
| Endpoint.SuppliedAbiSkipsFetch | clear_sign_ai/src/main.rs:31-56 | with a supplied ABI, the answer depends neither on the metadata provider nor on the Etherscan key, and it is the generator's answer to the prompt built from that ABI |
| Endpoint.FetchFailureReported | clear_sign_ai/src/main.rs:40-45 | a failed fetch ends the request with `"Error fetching ABI: "` and the fetch's message |
| Endpoint.ProviderFailureSurfaces | clear_sign_ai/src/main.rs:40-45 | an envelope with a status other than `"1"` ends the request with the provider's own message behind the fetch prefix |
| Endpoint.GeneratorStatusSurfaces | clear_sign_ai/src/main.rs:56-64 | a non-success generator status ends the request with `"Error: "`, the status and the raw body |
| Endpoint.GenerationFailureReported | clear_sign_ai/src/main.rs:56-64 | any failure of the generation call (send, read, status, parse or missing completion) ends the request with `"Error: "` and the call's message |
| Endpoint.CompletionAnswered | clear_sign_ai/src/main.rs:56-63 | a completion from the generator becomes the markdown answer, trimmed |
| Endpoint.AnswerIsTrimmed | clear_sign_ai/src/main.rs:56-63 | every markdown answer has no whitespace at either end |
| Endpoint.FailureKinds | clear_sign_ai/src/main.rs:21-66 | every 500 body is one of the two key errors, a fetch error or a generation error |
| Endpoint.FailureKindsDisjoint | clear_sign_ai/src/main.rs:27-64 | the four kinds of failure body never overlap, so a body tells which stage failed |

## Left out

- The actix-web server, routing, the JSON wrapping of the answer and `main` (lines 259–278) are not modelled. They are framework and process startup; the answer is the `Response` value.
- `dotenv` loading and `env::var` are environment I/O. The two keys are `Option<string>` inputs in `Env`.
- The environment is read once per request in the model. The source reads `ETHERSCAN_API_KEY` twice (lines 32 and 69), and the two reads can only differ under concurrent changes to the environment.
- The `reqwest` GET and POST, the URL and header construction, and reading the bodies (lines 72–87, 214–229) are network I/O. They are given functions returning outcome values. Their error texts are strings chosen by the environment.
- The request body sent to the generator (lines 206–212) has a floating-point temperature and an opaque serialisation. Only the formatted prompt and the key are passed to the POST function.
- `serde_json::from_str` and `to_string_pretty` are foreign library calls. They are the `parse` and `pretty` parameters. Their texts and failures are arbitrary.
- The `println!` logging (lines 232, 268–272) is not modelled; it has no effect on the result.
- `InputData` is the request body after deserialisation. serde turns a JSON `"abi": null` or a missing `abi` into `None`, so such a request fetches; `Some(Null)` cannot come from a real request, and the lemmas about `Some` ABIs cover it only as a value.
- JSON numbers are Dafny integers. Nothing in the core reads a number.
- JSON objects are association lists, and `Index` returns the first binding of a key. serde maps never hold a key twice.
- HTTP status codes: `is_success` is modelled as the range 200–299. The status's display text is carried as a given string next to its code.
- `Wording` is a modelling device. The builder and its lemmas are stated for any record of the fixed texts. `CreatePrompt` and `SourceLines` tie them to the source's literals.
