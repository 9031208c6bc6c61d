/**
 * The prompt builder (`create_prompt`): fixed instructions, the contract
 * address, one block per extracted function, the pretty-printed ABI in a
 * fenced block and a fixed closing instruction, all in one string.
 *
 * The fixed texts are gathered in one `Wording` record, `SourceWording`,
 * holding the literals of `create_prompt` piece by piece in the order they are
 * appended. The builder and its lemmas are stated for any wording and hold in
 * particular for `SourceWording`.
 */
module Prompt {
  import opened Wrappers
  import opened Json
  import opened Text
  import opened Abi

  /** Every fixed piece of text the builder appends. */
  datatype Wording = Wording(
    role: string,              // the role line
    addressLead: string,       // the text just before the address
    sectionsLead: string,      // the text just after the address
    overview: string,          // requested section 1
    descriptions: string,      // requested section 2
    examples: string,          // requested section 3
    security: string,          // requested section 4
    functionsLead: string,     // the sentence introducing the function list
    functionsHeading: string,  // "**Functions**:"
    nameLead: string,          // start of a function's name line
    codeClose: string,         // closing backtick and newline
    parametersHeading: string, // "  - Parameters:"
    returnsHeading: string,    // "  - Returns:"
    itemLead: string,          // start of a parameter or return line
    noneLine: string,          // the line for an empty list
    abiHeading: string,        // the sentence introducing the ABI
    fenceOpen: string,         // opening of the json fence
    fenceClose: string,        // closing of the json fence
    closing: string)           // the closing instruction

  /** The literals of `create_prompt`. */
  const SourceWording: Wording := Wording(
    "You are an AI assistant that helps developers by generating detailed documentation for Ethereum smart contracts.\n\n",
    "Please provide a comprehensive Markdown document for the smart contract at address ",
    " that includes the following sections:\n",
    "1. **Contract Overview**: A brief description of the smart contract based on its functions.\n",
    "2. **Function Descriptions**: Detailed descriptions of each function provided below, including parameters, expected behavior, and any return values.\n",
    "3. **Usage Examples**: Code snippets in Solidity and JavaScript demonstrating how to interact with the contract.\n",
    "4. **Security Considerations**: Any potential security risks or best practices.\n\n",
    "Here are the functions with their details for reference:\n\n",
    "**Functions**:\n",
    "- Function Name: `",
    "`\n",
    "  - Parameters:\n",
    "  - Returns:\n",
    "    - `",
    "    - None\n",
    "\nHere is the ABI of the contract for reference:\n\n",
    "```json\n",
    "\n```\n\n",
    "Please use the ABI and function details provided to generate the documentation. If any information is missing or unclear, please make reasonable assumptions and proceed. **Do not mention any lack of information in your response.**\n")

  /** The concatenation of `f(w, x)` over `xs`, in order. */
  function ConcatMap<T>(w: Wording, xs: seq<T>, f: (Wording, T) -> string): string
  {
    if xs == [] then ""
    else ConcatMap(w, xs[..|xs| - 1], f) + f(w, xs[|xs| - 1])
  }

  /** The line of one parameter: its type and name, space-separated, in backticks. */
  function ParamLine(w: Wording, p: (string, string)): string
  {
    w.itemLead + p.0 + " " + p.1 + w.codeClose
  }

  /** The line of one output: its type in backticks. */
  function ReturnLine(w: Wording, t: string): string
  {
    w.itemLead + t + w.codeClose
  }

  function ParametersBlock(w: Wording, ps: seq<(string, string)>): string
  {
    if |ps| == 0 then w.noneLine else ConcatMap(w, ps, ParamLine)
  }

  function ReturnsBlock(w: Wording, ts: seq<string>): string
  {
    if |ts| == 0 then w.noneLine else ConcatMap(w, ts, ReturnLine)
  }

  /** The block of one function: its name, then its Parameters and Returns sub-lists. */
  function FunctionBlock(w: Wording, f: FunctionInfo): string
  {
    w.nameLead + f.name + w.codeClose + w.parametersHeading + ParametersBlock(w, f.inputs)
    + w.returnsHeading + ReturnsBlock(w, f.outputs)
  }

  /** All function blocks, in order. */
  function FunctionList(w: Wording, functions: seq<FunctionInfo>): string
  {
    ConcatMap(w, functions, FunctionBlock)
  }

  /** The instructions around the address, up to and including the "**Functions**:" heading. */
  function Header(w: Wording, address: string): string
  {
    w.role + w.addressLead + address + w.sectionsLead + w.overview + w.descriptions + w.examples
    + w.security + w.functionsLead + w.functionsHeading
  }

  /** The prompt as a value of its inputs. */
  function PromptText(w: Wording, functions: seq<FunctionInfo>, address: string, abiText: string): string
  {
    Header(w, address) + FunctionList(w, functions) + w.abiHeading + w.fenceOpen + abiText + w.fenceClose + w.closing
  }

  /** `to_string_pretty(abi).unwrap_or_else(|_| "")`, with the printer given. */
  function AbiText(pretty: Value -> Option<string>, abi: Value): string
  {
    pretty(abi).GetOr("")
  }

  /** `create_prompt` itself: the builder run with the source's literals. */
  method CreatePrompt(functions: seq<FunctionInfo>, contractAddress: string, abi: Value,
                      pretty: Value -> Option<string>) returns (prompt: string)
    ensures prompt == PromptText(SourceWording, functions, contractAddress, AbiText(pretty, abi))
  {
    var abiStr := pretty(abi).GetOr("");
    prompt := BuildPrompt(SourceWording, functions, contractAddress, abiStr);
  }

  /** The body of `create_prompt`: one string grown by appends, one function block per iteration. */
  method BuildPrompt(w: Wording, functions: seq<FunctionInfo>, contractAddress: string, abiStr: string)
    returns (prompt: string)
    ensures prompt == PromptText(w, functions, contractAddress, abiStr)
  {
    prompt := "";
    prompt := prompt + w.role;
    prompt := prompt + w.addressLead;
    prompt := prompt + contractAddress;
    prompt := prompt + w.sectionsLead;
    prompt := prompt + w.overview;
    prompt := prompt + w.descriptions;
    prompt := prompt + w.examples;
    prompt := prompt + w.security;
    prompt := prompt + w.functionsLead;
    prompt := prompt + w.functionsHeading;
    EmptyLeft(w.role);
    ghost var header := prompt;

    for i := 0 to |functions|
      invariant prompt == header + FunctionList(w, functions[..i])
    {
      var func := functions[i];
      ghost var before := prompt;
      prompt := prompt + w.nameLead;
      prompt := prompt + func.name;
      prompt := prompt + w.codeClose;
      prompt := prompt + w.parametersHeading;
      prompt := PushParameters(w, prompt, func.inputs);
      prompt := prompt + w.returnsHeading;
      prompt := PushReturns(w, prompt, func.outputs);
      Assoc7(before, w.nameLead, func.name, w.codeClose, w.parametersHeading, ParametersBlock(w, func.inputs),
        w.returnsHeading, ReturnsBlock(w, func.outputs));
      assert functions[..i + 1][..i] == functions[..i];
      Assoc(header, FunctionList(w, functions[..i]), FunctionBlock(w, func));
    }
    assert functions[..|functions|] == functions;

    prompt := prompt + w.abiHeading;
    prompt := prompt + w.fenceOpen;
    prompt := prompt + abiStr;
    prompt := prompt + w.fenceClose;
    prompt := prompt + w.closing;
  }

  /** The Parameters sub-list of one function: the "None" line, or a loop over the inputs. */
  method PushParameters(w: Wording, prompt: string, inputs: seq<(string, string)>) returns (out: string)
    ensures out == prompt + ParametersBlock(w, inputs)
  {
    out := prompt;
    if |inputs| == 0 {
      out := out + w.noneLine;
    } else {
      for j := 0 to |inputs|
        invariant out == prompt + ConcatMap(w, inputs[..j], ParamLine)
      {
        ghost var before := out;
        var typ, name := inputs[j].0, inputs[j].1;
        out := out + w.itemLead;
        out := out + typ;
        out := out + " ";
        out := out + name;
        out := out + w.codeClose;
        Assoc5(before, w.itemLead, typ, " ", name, w.codeClose);
        assert inputs[..j + 1][..j] == inputs[..j];
        Assoc(prompt, ConcatMap(w, inputs[..j], ParamLine), ParamLine(w, inputs[j]));
      }
      assert inputs[..|inputs|] == inputs;
    }
  }

  /** The Returns sub-list of one function: the "None" line, or a loop over the outputs. */
  method PushReturns(w: Wording, prompt: string, outputs: seq<string>) returns (out: string)
    ensures out == prompt + ReturnsBlock(w, outputs)
  {
    out := prompt;
    if |outputs| == 0 {
      out := out + w.noneLine;
    } else {
      for j := 0 to |outputs|
        invariant out == prompt + ConcatMap(w, outputs[..j], ReturnLine)
      {
        ghost var before := out;
        var typ := outputs[j];
        out := out + w.itemLead;
        out := out + typ;
        out := out + w.codeClose;
        Assoc3(before, w.itemLead, typ, w.codeClose);
        assert outputs[..j + 1][..j] == outputs[..j];
        Assoc(prompt, ConcatMap(w, outputs[..j], ReturnLine), ReturnLine(w, outputs[j]));
      }
      assert outputs[..|outputs|] == outputs;
    }
  }

  lemma EmptyLeft(a: string)
    ensures "" + a == a
  {
  }

  lemma Assoc(a: string, b: string, c: string)
    ensures a + b + c == a + (b + c)
  {
  }

  lemma Assoc3(a: string, b: string, c: string, d: string)
    ensures a + b + c + d == a + (b + c + d)
  {
  }

  lemma Assoc5(a: string, b: string, c: string, d: string, e: string, f: string)
    ensures a + b + c + d + e + f == a + (b + c + d + e + f)
  {
  }

  lemma Assoc7(a: string, b: string, c: string, d: string, e: string, f: string, g: string, h: string)
    ensures a + b + c + d + e + f + g + h == a + (b + c + d + e + f + g + h)
  {
  }

  /** Concatenating over `a + b` is concatenating over `a`, then over `b`. */
  lemma {:induction false} ConcatMapAppend<T>(w: Wording, a: seq<T>, b: seq<T>, f: (Wording, T) -> string)
    ensures ConcatMap(w, a + b, f) == ConcatMap(w, a, f) + ConcatMap(w, b, f)
    decreases |b|
  {
    if b == [] {
      assert a + b == a;
    } else {
      var n := |b| - 1;
      assert (a + b)[..|a + b| - 1] == a + b[..n];
      ConcatMapAppend(w, a, b[..n], f);
    }
  }

  /** Splitting the elements at `k` splits the concatenation at the same place. */
  lemma ConcatMapSplit<T>(w: Wording, xs: seq<T>, k: nat, f: (Wording, T) -> string)
    requires k <= |xs|
    ensures ConcatMap(w, xs, f) == ConcatMap(w, xs[..k], f) + ConcatMap(w, xs[k..], f)
  {
    assert xs == xs[..k] + xs[k..];
    ConcatMapAppend(w, xs[..k], xs[k..], f);
  }

  lemma ConcatMapOne<T>(w: Wording, x: T, f: (Wording, T) -> string)
    ensures ConcatMap(w, [x], f) == f(w, x)
  {
    assert [x][..0] == [];
  }

  /** Element `k` contributes its own piece, after the pieces of the elements before it. */
  lemma ConcatMapAt<T>(w: Wording, xs: seq<T>, k: nat, f: (Wording, T) -> string)
    requires k < |xs|
    ensures ConcatMap(w, xs, f) == ConcatMap(w, xs[..k], f) + f(w, xs[k]) + ConcatMap(w, xs[k + 1..], f)
  {
    ConcatMapSplit(w, xs, k, f);
    var rest := xs[k..];
    ConcatMapSplit(w, rest, 1, f);
    assert rest[..1] == [xs[k]];
    ConcatMapOne(w, xs[k], f);
    assert rest[1..] == xs[k + 1..];
  }

  /**
   * The Parameters block is exactly the "None" line when there are no inputs;
   * otherwise it is one "`type name`" line per input, the line of input `k`
   * after the lines of the inputs before it and before those after it.
   */
  lemma ParametersBlockLines(w: Wording, ps: seq<(string, string)>)
    ensures |ps| == 0 ==> ParametersBlock(w, ps) == w.noneLine
    ensures forall k :: 0 <= k < |ps| ==>
      ParametersBlock(w, ps) == ConcatMap(w, ps[..k], ParamLine) + ParamLine(w, ps[k]) + ConcatMap(w, ps[k + 1..], ParamLine)
  {
    forall k | 0 <= k < |ps|
      ensures ParametersBlock(w, ps) ==
        ConcatMap(w, ps[..k], ParamLine) + ParamLine(w, ps[k]) + ConcatMap(w, ps[k + 1..], ParamLine)
    {
      ConcatMapAt(w, ps, k, ParamLine);
    }
  }

  /**
   * The Returns block is exactly the "None" line when there are no outputs;
   * otherwise it is one "`type`" line per output, in the same order.
   */
  lemma ReturnsBlockLines(w: Wording, ts: seq<string>)
    ensures |ts| == 0 ==> ReturnsBlock(w, ts) == w.noneLine
    ensures forall k :: 0 <= k < |ts| ==>
      ReturnsBlock(w, ts) == ConcatMap(w, ts[..k], ReturnLine) + ReturnLine(w, ts[k]) + ConcatMap(w, ts[k + 1..], ReturnLine)
  {
    forall k | 0 <= k < |ts|
      ensures ReturnsBlock(w, ts) ==
        ConcatMap(w, ts[..k], ReturnLine) + ReturnLine(w, ts[k]) + ConcatMap(w, ts[k + 1..], ReturnLine)
    {
      ConcatMapAt(w, ts, k, ReturnLine);
    }
  }

  /** The block of function `k` stands after the blocks of the functions before it. */
  lemma FunctionListAt(w: Wording, functions: seq<FunctionInfo>, k: nat)
    requires k < |functions|
    ensures FunctionList(w, functions) ==
      FunctionList(w, functions[..k]) + FunctionBlock(w, functions[k]) + FunctionList(w, functions[k + 1..])
  {
    ConcatMapAt(w, functions, k, FunctionBlock);
  }

  lemma Starts(x: string, y: string)
    ensures StartsWith(x + y, x)
  {
    assert (x + y)[..|x|] == x;
  }

  lemma StartsExtend(x: string, y: string, z: string)
    requires StartsWith(x, z)
    ensures StartsWith(x + y, z)
  {
    assert (x + y)[..|z|] == x[..|z|];
  }

  lemma Ends(x: string, y: string)
    ensures EndsWith(x + y, y)
  {
    assert (x + y)[|x + y| - |y|..] == y;
  }

  lemma Middle(x: string, y: string, z: string)
    ensures OccursAt(x + y + z, |x|, y)
  {
    assert (x + y + z)[|x|..|x| + |y|] == y;
  }

  /**
   * The overall shape: the prompt starts with the role line, the request and
   * the address; the "**Functions**:" heading is followed at once by the
   * function blocks and then by the ABI heading; the ABI text sits in the json
   * fence; the prompt ends with the closing instruction.
   */
  lemma PromptShape(w: Wording, functions: seq<FunctionInfo>, address: string, abiText: string)
    ensures var p, h, list := PromptText(w, functions, address, abiText), Header(w, address), FunctionList(w, functions);
      && StartsWith(p, w.role + w.addressLead + address)
      && OccursAt(p, |h| - |w.functionsHeading|, w.functionsHeading + list + w.abiHeading)
      && OccursAt(p, |h + list + w.abiHeading|, w.fenceOpen + abiText + w.fenceClose)
      && EndsWith(p, w.closing)
  {
    var list := FunctionList(w, functions);
    var lead := w.role + w.addressLead + address;
    var h0 := lead + w.sectionsLead + w.overview + w.descriptions + w.examples + w.security + w.functionsLead;
    var h := h0 + w.functionsHeading;
    var middle := w.functionsHeading + list + w.abiHeading;
    var fence := w.fenceOpen + abiText + w.fenceClose;
    var p := h + list + w.abiHeading + w.fenceOpen + abiText + w.fenceClose + w.closing;
    assert Header(w, address) == h;
    assert PromptText(w, functions, address, abiText) == p;

    // the start
    Starts(lead, w.sectionsLead);
    StartsExtend(lead + w.sectionsLead, w.overview, lead);
    StartsExtend(lead + w.sectionsLead + w.overview, w.descriptions, lead);
    StartsExtend(lead + w.sectionsLead + w.overview + w.descriptions, w.examples, lead);
    StartsExtend(lead + w.sectionsLead + w.overview + w.descriptions + w.examples, w.security, lead);
    StartsExtend(lead + w.sectionsLead + w.overview + w.descriptions + w.examples + w.security, w.functionsLead, lead);
    StartsExtend(h0, w.functionsHeading, lead);
    StartsExtend(h, list, lead);
    StartsExtend(h + list, w.abiHeading, lead);
    StartsExtend(h + list + w.abiHeading, w.fenceOpen, lead);
    StartsExtend(h + list + w.abiHeading + w.fenceOpen, abiText, lead);
    StartsExtend(h + list + w.abiHeading + w.fenceOpen + abiText, w.fenceClose, lead);
    StartsExtend(h + list + w.abiHeading + w.fenceOpen + abiText + w.fenceClose, w.closing, lead);

    // the function list between its two headings
    Assoc(h0, w.functionsHeading, list);
    Assoc(h0, w.functionsHeading + list, w.abiHeading);
    Assoc3(h0 + middle, w.fenceOpen, abiText, w.fenceClose);
    Assoc(h0 + middle, fence, w.closing);
    Middle(h0, middle, fence + w.closing);

    // the fenced ABI
    Assoc3(h + list + w.abiHeading, w.fenceOpen, abiText, w.fenceClose);
    Middle(h + list + w.abiHeading, fence, w.closing);

    // the end
    Ends(h + list + w.abiHeading + w.fenceOpen + abiText + w.fenceClose, w.closing);
  }

  /** The lines of the source's wording, spelled out. */
  lemma SourceLines(typ: string, name: string)
    ensures ParametersBlock(SourceWording, []) == "    - None\n"
    ensures ReturnsBlock(SourceWording, []) == "    - None\n"
    ensures ParamLine(SourceWording, (typ, name)) == "    - `" + typ + " " + name + "`\n"
    ensures ReturnLine(SourceWording, typ) == "    - `" + typ + "`\n"
    ensures SourceWording.functionsHeading == "**Functions**:\n"
  {
  }

  /** With no functions the heading and the ABI heading are adjacent and nothing else changes. */
  lemma PromptWithoutFunctions(w: Wording, address: string, abiText: string)
    ensures PromptText(w, [], address, abiText) ==
      Header(w, address) + w.abiHeading + w.fenceOpen + abiText + w.fenceClose + w.closing
    ensures OccursAt(PromptText(w, [], address, abiText), |Header(w, address)| - |w.functionsHeading|,
      w.functionsHeading + w.abiHeading)
  {
    PromptShape(w, [], address, abiText);
    assert w.functionsHeading + "" + w.abiHeading == w.functionsHeading + w.abiHeading;
  }
}
