/**
 * The ABI function extractor: from a contract ABI (a JSON array of entries)
 * keep the entries whose "type" is the string "function" and summarise each
 * one by its name, its (type, name) parameters and its output types. Every
 * field read is tolerant, so extraction never fails.
 */
module Abi {
  import opened Wrappers
  import opened Json

  /** One callable function: name, (type, name) parameters, output types. */
  datatype FunctionInfo = FunctionInfo(name: string, inputs: seq<(string, string)>, outputs: seq<string>)

  /** `item["type"] == "function"`: serde compares a value with a `&str` by string equality. */
  predicate IsFunctionEntry(item: Value)
  {
    item.Index("type") == Str("function")
  }

  /** The `inputs` map: each element becomes (its "type", its "name"), tolerant of anything. */
  function Params(inputs: seq<Value>): seq<(string, string)>
  {
    seq(|inputs|, k requires 0 <= k < |inputs| => (StrOrEmpty(inputs[k].Index("type")), StrOrEmpty(inputs[k].Index("name"))))
  }

  /** The `outputs` map: each element becomes its "type", tolerant of anything. */
  function ReturnTypes(outputs: seq<Value>): seq<string>
  {
    seq(|outputs|, k requires 0 <= k < |outputs| => StrOrEmpty(outputs[k].Index("type")))
  }

  /** The summary of one function entry. */
  function Summarize(item: Value): FunctionInfo
  {
    FunctionInfo(
      StrOrEmpty(item.Index("name")),
      Params(ArrayOrEmpty(item.Index("inputs"))),
      ReturnTypes(ArrayOrEmpty(item.Index("outputs"))))
  }

  /**
   * The field defaults of a summary: a missing or non-string name is "", a
   * missing or non-array list is empty, and otherwise each list has one
   * element per array element, in order.
   */
  lemma SummarizeFields(item: Value)
    ensures var r := Summarize(item);
      && r.name == (if item.Index("name").Str? then item.Index("name").s else "")
      && (!item.Index("inputs").Arr? ==> r.inputs == [])
      && (!item.Index("outputs").Arr? ==> r.outputs == [])
      && (item.Index("inputs").Arr? ==> var xs := item.Index("inputs").items;
           |r.inputs| == |xs| && forall k :: 0 <= k < |xs| ==>
             r.inputs[k] == (StrOrEmpty(xs[k].Index("type")), StrOrEmpty(xs[k].Index("name"))))
      && (item.Index("outputs").Arr? ==> var ys := item.Index("outputs").items;
           |r.outputs| == |ys| && forall k :: 0 <= k < |ys| ==> r.outputs[k] == StrOrEmpty(ys[k].Index("type")))
  {
  }

  /** What the loop has produced after visiting `items`, in the order it pushes. */
  function Extracted(items: seq<Value>): seq<FunctionInfo>
  {
    if items == [] then []
    else
      var n := |items| - 1;
      Extracted(items[..n]) + (if IsFunctionEntry(items[n]) then [Summarize(items[n])] else [])
  }

  /** `extract_functions_info` as a value: a non-array ABI has no functions. */
  function ExtractFunctions(abi: Value): seq<FunctionInfo>
  {
    match abi.AsArray()
    case None => []
    case Some(items) => Extracted(items)
  }

  /**
   * The positions of the function entries of `items`, in increasing order:
   * an independent description of which entries the extractor keeps.
   */
  function FunctionIndices(items: seq<Value>): (idx: seq<nat>)
    ensures forall k :: 0 <= k < |idx| ==> idx[k] < |items| && IsFunctionEntry(items[idx[k]])
  {
    if items == [] then []
    else
      var n := |items| - 1;
      var init := items[..n];
      assert forall i :: 0 <= i < n ==> init[i] == items[i];
      FunctionIndices(init) + (if IsFunctionEntry(items[n]) then [n] else [])
  }

  /** The method the source runs: a loop over the array that pushes one summary per function entry. */
  method ExtractFunctionsInfo(abi: Value) returns (functions: seq<FunctionInfo>)
    ensures functions == ExtractFunctions(abi)
    ensures !abi.Arr? ==> functions == []
  {
    functions := [];
    match abi.AsArray() {
      case None =>
      case Some(items) =>
        for i := 0 to |items|
          invariant functions == Extracted(items[..i])
        {
          var item := items[i];
          if item.Index("type") == Str("function") {
            var name := item.Index("name").AsStr().GetOr("");
            var inputs := item.Index("inputs").AsArray().GetOr([]);
            var params := Params(inputs);
            var outputs := item.Index("outputs").AsArray().GetOr([]);
            var returnTypes := ReturnTypes(outputs);
            functions := functions + [FunctionInfo(name, params, returnTypes)];
          }
          assert items[..i + 1][..i] == items[..i];
        }
        assert items[..|items|] == items;
    }
  }

  /** Extraction over a concatenation is the concatenation of the extractions. */
  lemma {:induction false} ExtractedAppend(a: seq<Value>, b: seq<Value>)
    ensures Extracted(a + b) == Extracted(a) + Extracted(b)
    decreases |b|
  {
    if b == [] {
      assert a + b == a;
    } else {
      var n := |b| - 1;
      assert (a + b)[..|a + b| - 1] == a + b[..n];
      ExtractedAppend(a, b[..n]);
    }
  }

  /**
   * The extractor returns exactly one summary per function entry, in the
   * entries' order (duplicates included), and skips every other entry.
   */
  lemma {:induction false} ExtractedSelectsFunctionEntries(items: seq<Value>)
    ensures var r, idx := Extracted(items), FunctionIndices(items);
      |r| == |idx| && forall k :: 0 <= k < |r| ==> r[k] == Summarize(items[idx[k]])
  {
    if items != [] {
      var n := |items| - 1;
      var init := items[..n];
      ExtractedSelectsFunctionEntries(init);
      var prev := FunctionIndices(init);
      assert forall k :: 0 <= k < |prev| ==> init[prev[k]] == items[prev[k]];
    }
  }

  /** A non-array ABI yields no functions; an array with no function entry yields none either. */
  lemma NoFunctionEntriesNoSummaries(abi: Value)
    requires abi.Arr? ==> forall i :: 0 <= i < |abi.items| ==> !IsFunctionEntry(abi.items[i])
    ensures ExtractFunctions(abi) == []
  {
    if abi.Arr? {
      ExtractedSelectsFunctionEntries(abi.items);
      NoFunctionIndices(abi.items);
    }
  }

  /** An ABI made only of function entries yields one summary per entry, position for position. */
  lemma AllFunctionEntriesAllSummarized(items: seq<Value>)
    requires forall i :: 0 <= i < |items| ==> IsFunctionEntry(items[i])
    ensures var r := ExtractFunctions(Arr(items));
      |r| == |items| && forall k :: 0 <= k < |items| ==> r[k] == Summarize(items[k])
  {
    AllFunctionIndices(items);
    ExtractedSelectsFunctionEntries(items);
  }

  lemma {:induction false} AllFunctionIndices(items: seq<Value>)
    requires forall i :: 0 <= i < |items| ==> IsFunctionEntry(items[i])
    ensures |FunctionIndices(items)| == |items|
    ensures forall k :: 0 <= k < |items| ==> FunctionIndices(items)[k] == k
  {
    if items != [] {
      var n := |items| - 1;
      var init := items[..n];
      assert forall i :: 0 <= i < |init| ==> init[i] == items[i];
      AllFunctionIndices(init);
      var prev := FunctionIndices(init);
      assert IsFunctionEntry(items[n]);
      assert FunctionIndices(items) == prev + [n];
    }
  }

  lemma {:induction false} NoFunctionIndices(items: seq<Value>)
    requires forall i :: 0 <= i < |items| ==> !IsFunctionEntry(items[i])
    ensures FunctionIndices(items) == []
  {
    if items != [] {
      var n := |items| - 1;
      var init := items[..n];
      assert forall i :: 0 <= i < |init| ==> init[i] == items[i];
      NoFunctionIndices(init);
      assert !IsFunctionEntry(items[n]);
    }
  }

  predicate StrictlyIncreasing(xs: seq<nat>)
  {
    forall k, l :: 0 <= k < l < |xs| ==> xs[k] < xs[l]
  }

  /** The positions of the function entries increase strictly. */
  lemma {:induction false} FunctionIndicesIncreasing(items: seq<Value>)
    ensures StrictlyIncreasing(FunctionIndices(items))
  {
    if items != [] {
      var n := |items| - 1;
      var prev := FunctionIndices(items[..n]);
      FunctionIndicesIncreasing(items[..n]);
      if IsFunctionEntry(items[n]) {
        AppendLarger(prev, n);
      }
    }
  }

  lemma AppendLarger(xs: seq<nat>, x: nat)
    requires StrictlyIncreasing(xs) && forall k :: 0 <= k < |xs| ==> xs[k] < x
    ensures StrictlyIncreasing(xs + [x])
  {
  }

  /** Every function entry's position is listed. */
  lemma {:induction false} FunctionIndicesComplete(items: seq<Value>)
    ensures forall i :: 0 <= i < |items| && IsFunctionEntry(items[i]) ==> i in FunctionIndices(items)
  {
    if items != [] {
      var n := |items| - 1;
      var init := items[..n];
      FunctionIndicesComplete(init);
      assert forall i :: 0 <= i < n ==> init[i] == items[i];
    }
  }
}
