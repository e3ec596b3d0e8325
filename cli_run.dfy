/** The command-line `run` command: find the pipeline, collect its inputs
    from `-i key=value` flags (prompting only for required inputs that no
    flag supplies), choose the report type and the output format, and hand
    the request to the report engine. Prompts are parameters: the answer
    the user would give. */
module CliRun {
  import opened Wrappers
  import opened Js
  import PluginBase
  import PluginRegistry

  // ---------------------------------------------------------------
  // `-i key=value` pairs
  // ---------------------------------------------------------------

  /** `pair.split("=")[0].toLowerCase()` */
  function PairKey(pair: string): string {
    Lower(Before(pair, '='))
  }

  /** `pair.split("=").slice(1).join("=")` */
  function PairValue(pair: string): string {
    After(pair, '=')
  }

  /** The key is what precedes the first '=', and the value is all that
      follows it, later '=' included. */
  lemma PairParts(key: string, value: string)
    requires '=' !in key
    ensures PairKey(key + "=" + value) == Lower(key)
    ensures PairValue(key + "=" + value) == value
  {
    var s := key + "=" + value;
    BeforeAfter(s, '=');
    var b, a := Before(s, '='), After(s, '=');
    assert '=' in s by { assert s[|key|] == '='; }
    assert s == b + "=" + a;
    assert |b| == |key| by {
      assert forall k :: 0 <= k < |b| ==> s[k] == b[k] && b[k] != '=';
      assert forall k :: 0 <= k < |key| ==> s[k] == key[k] && key[k] != '=';
      assert s[|b|] == '=' && s[|key|] == '=';
    }
    assert b == s[..|b|] && key == s[..|key|];
    assert a == s[|b| + 1..] && value == s[|key| + 1..];
  }

  /** `inputArray.find(...)`: the first pair whose key matches the input
      name, ignoring case. */
  function FindPair(pairs: seq<string>, name: string): (r: Option<string>)
    ensures r.Some? ==>
      exists i :: (0 <= i < |pairs| && pairs[i] == r.value && PairKey(pairs[i]) == Lower(name)
                   && forall j :: 0 <= j < i ==> PairKey(pairs[j]) != Lower(name))
    ensures r.None? <==> forall i :: 0 <= i < |pairs| ==> PairKey(pairs[i]) != Lower(name)
  {
    if pairs == [] then None
    else if PairKey(pairs[0]) == Lower(name) then
      Some(pairs[0])
    else
      var r := FindPair(pairs[1..], name);
      assert forall i :: 1 <= i < |pairs| ==> pairs[i] == pairs[1..][i - 1];
      if r.Some? then
        var i :| 0 <= i < |pairs[1..]| && pairs[1..][i] == r.value && PairKey(pairs[1..][i]) == Lower(name)
                 && forall j :: 0 <= j < i ==> PairKey(pairs[1..][j]) != Lower(name);
        assert pairs[i + 1] == r.value && forall j :: 0 <= j < i + 1 ==> PairKey(pairs[j]) != Lower(name);
        r
      else r
  }

  /** The value a flag gives an input, if any flag names it. */
  function FlagValue(pairs: seq<string>, name: string): Option<string> {
    var p := FindPair(pairs, name);
    if p.Some? then Some(PairValue(p.value)) else None
  }

  // ---------------------------------------------------------------
  // Collecting inputs
  // ---------------------------------------------------------------

  /** What one input contributes: the flag's value, else the prompted
      answer when the input is required, else nothing. */
  function ValueFor(f: PluginBase.InputField, pairs: seq<string>, answer: string -> Value): Option<Value> {
    var flag := FlagValue(pairs, f.name);
    if flag.Some? then Some(Str(flag.value))
    else if f.required then Some(answer(f.name))
    else None
  }

  /** The `inputs` record after handling `fields` in order. */
  function Collected(fields: seq<PluginBase.InputField>, pairs: seq<string>, answer: string -> Value): seq<Prop>
    decreases |fields|
  {
    if fields == [] then []
    else
      var prev := Collected(fields[..|fields| - 1], pairs, answer);
      var f := fields[|fields| - 1];
      var v := ValueFor(f, pairs, answer);
      if v.Some? then Assign(prev, f.name, v.value) else prev
  }

  predicate DistinctNames(fields: seq<PluginBase.InputField>) {
    forall i, j :: 0 <= i < j < |fields| ==> fields[i].name != fields[j].name
  }

  /** The record has distinct keys, each the name of an input. */
  lemma {:induction false} CollectedKeys(fields: seq<PluginBase.InputField>, pairs: seq<string>, answer: string -> Value)
    ensures var inputs := Collected(fields, pairs, answer);
      DistinctKeys(inputs)
      && forall k :: k in Keys(inputs) ==> exists i :: 0 <= i < |fields| && fields[i].name == k
    decreases |fields|
  {
    if fields != [] {
      var init := fields[..|fields| - 1];
      var f := fields[|fields| - 1];
      var prev := Collected(init, pairs, answer);
      CollectedKeys(init, pairs, answer);
      var v := ValueFor(f, pairs, answer);
      var inputs := Collected(fields, pairs, answer);
      if v.Some? {
        DistinctAssign(prev, f.name, v.value);
        KeysAssign(prev, f.name, v.value);
      }
      forall k | k in Keys(inputs) ensures exists i :: 0 <= i < |fields| && fields[i].name == k {
        if k != f.name {
          var i :| 0 <= i < |init| && init[i].name == k;
          assert fields[i] == init[i];
        }
      }
    }
  }

  /** With distinct input names, each input holds exactly what its flag or
      its prompt gave, and an optional input without a flag is absent. */
  lemma {:induction false} CollectedValues(fields: seq<PluginBase.InputField>, pairs: seq<string>, answer: string -> Value)
    requires DistinctNames(fields)
    ensures var inputs := Collected(fields, pairs, answer);
      forall i :: 0 <= i < |fields| ==>
        var v := ValueFor(fields[i], pairs, answer);
        (v.Some? ==> Lookup(inputs, fields[i].name) == v.value)
        && (v.None? ==> fields[i].name !in Keys(inputs))
    decreases |fields|
  {
    if fields != [] {
      var init := fields[..|fields| - 1];
      var f := fields[|fields| - 1];
      var prev := Collected(init, pairs, answer);
      assert DistinctNames(init);
      CollectedValues(init, pairs, answer);
      CollectedKeys(init, pairs, answer);
      var v := ValueFor(f, pairs, answer);
      var inputs := Collected(fields, pairs, answer);
      forall i | 0 <= i < |fields|
        ensures var w := ValueFor(fields[i], pairs, answer);
          (w.Some? ==> Lookup(inputs, fields[i].name) == w.value)
          && (w.None? ==> fields[i].name !in Keys(inputs))
      {
        var g := fields[i];
        if i < |fields| - 1 {
          assert g == init[i];
          assert g.name != f.name;
          if v.Some? {
            LookupAssign(prev, f.name, v.value, g.name);
            KeysAssign(prev, f.name, v.value);
          }
        } else if v.Some? {
          LookupAssign(prev, f.name, v.value, f.name);
        }
      }
    }
  }

  /** STEP 1: the loop over `pipeline.inputs`. */
  method CollectInputs(fields: seq<PluginBase.InputField>, pairs: seq<string>, answer: string -> Value)
    returns (inputs: seq<Prop>)
    ensures inputs == Collected(fields, pairs, answer)
  {
    inputs := [];
    var i := 0;
    while i < |fields|
      invariant 0 <= i <= |fields|
      invariant inputs == Collected(fields[..i], pairs, answer)
    {
      var f := fields[i];
      var inputValue: Option<string> := None;
      if pairs != [] {
        var pair := FindPair(pairs, f.name);
        if pair.Some? {
          inputValue := Some(PairValue(pair.value));
        }
      }
      if inputValue.Some? {
        inputs := Assign(inputs, f.name, Str(inputValue.value));
      } else if f.required {
        inputs := Assign(inputs, f.name, answer(f.name));
      }
      assert fields[..i + 1][..i] == fields[..i];
      i := i + 1;
    }
    assert fields[..|fields|] == fields;
  }

  // ---------------------------------------------------------------
  // Report type and output format
  // ---------------------------------------------------------------

  /** STEP 2: the flag when given, else the only specification, else the
      prompted choice. */
  function ReportTypeOf(flag: Option<string>, keys: seq<string>, prompted: string): (t: string)
    requires keys != []
    ensures flag.Some? && flag.value != "" ==> t == flag.value
    ensures (flag.None? || flag.value == "") && |keys| == 1 ==> t == keys[0]
    ensures (flag.None? || flag.value == "") && |keys| != 1 ==> t == prompted
  {
    if flag.Some? && flag.value != "" then flag.value
    else if |keys| == 1 then keys[0]
    else prompted
  }

  /** With a single specification and no flag, the user is never asked. */
  lemma SingleSpecificationChosen(keys: seq<string>, prompted: string)
    requires |keys| == 1
    ensures ReportTypeOf(None, keys, prompted) == keys[0]
    ensures ReportTypeOf(Some(""), keys, prompted) == keys[0]
  {
  }

  /** What the command hands to the report engine. */
  datatype Request = Request(pipelineId: string, inputs: seq<Prop>, reportType: string, outputFormat: string)

  /** The command-line options and what the prompts would answer. */
  datatype Options = Options(
    format: Option<string>,
    reportType: Option<string>,
    input: seq<string>)

  datatype Answers = Answers(input: string -> Value, reportType: string, outputFormat: string)

  function NoSpecificationsMessage(id: string): string {
    "Pipeline '" + id + "' does not define any report specifications"
  }

  function InvalidFormatMessage(format: string): string {
    "Invalid output format: " + format
  }

  /** The command's specification for a pipeline that was found: the
      request, or the message of the error that stops it. */
  function Prepare(p: PluginBase.Plugin, o: Options, a: Answers): (r: Result<Request>) {
    if p.inputs.None? then Err("pipeline.inputs is not iterable")
    else
      var inputs := Collected(p.inputs.value, o.input, a.input);
      var keys := PluginBase.SpecKeys(p.specifications);
      if keys == [] then Err(NoSpecificationsMessage(p.id))
      else
        var reportType := ReportTypeOf(o.reportType, keys, a.reportType);
        var format := if o.format.Some? && o.format.value != "" then o.format.value else a.outputFormat;
        if p.outputFormats.None? then Err(ReadError(Undefined, "includes"))
        else if format !in p.outputFormats.value then Err(InvalidFormatMessage(format))
        else Ok(Request(p.id, inputs, reportType, format))
  }

  /** A request always names a specification the pipeline defines when it
      was chosen without a flag, and an output format the pipeline lists. */
  lemma PreparedRequestShape(p: PluginBase.Plugin, o: Options, a: Answers)
    ensures var r := Prepare(p, o, a);
      (r.Ok? ==> p.outputFormats.Some? && r.value.outputFormat in p.outputFormats.value
                 && r.value.pipelineId == p.id)
      && ((r.Ok? && (o.reportType.None? || o.reportType.value == "") && |p.specifications| == 1)
          ==> r.value.reportType == p.specifications[0].reportType)
      && (p.inputs.Some? && p.specifications == [] ==> r == Err(NoSpecificationsMessage(p.id)))
  {
  }

  /** The whole action. `Err` carries the line the command logs before
      exiting with status 1. */
  method Run(registry: PluginRegistry.Registry, pipelineId: string, o: Options, a: Answers)
    returns (r: Result<Request>)
    requires registry.Valid()
    ensures pipelineId !in registry.ids ==> r == Err("Pipeline not found: " + pipelineId)
    ensures pipelineId in registry.ids ==>
      var prepared := Prepare(registry.plugins[pipelineId], o, a);
      r == if prepared.Ok? then prepared else Err("Pipeline failed: " + prepared.msg)
  {
    var found := registry.Get(pipelineId);
    if found.None? {
      return Err("Pipeline not found: " + pipelineId);
    }
    var pipeline := found.value;
    if pipeline.inputs.None? {
      return Err("Pipeline failed: " + "pipeline.inputs is not iterable");
    }
    var inputs := CollectInputs(pipeline.inputs.value, o.input, a.input);
    var specKeys := PluginBase.SpecKeys(pipeline.specifications);
    if |specKeys| == 0 {
      return Err("Pipeline failed: " + NoSpecificationsMessage(pipeline.id));
    }
    var reportType: string;
    if o.reportType.Some? && o.reportType.value != "" {
      reportType := o.reportType.value;
    } else if |specKeys| == 1 {
      reportType := specKeys[0];
    } else {
      reportType := a.reportType;
    }
    var outputFormat: string;
    if o.format.Some? && o.format.value != "" {
      outputFormat := o.format.value;
    } else {
      outputFormat := a.outputFormat;
    }
    if pipeline.outputFormats.None? {
      return Err("Pipeline failed: " + ReadError(Undefined, "includes"));
    }
    if outputFormat !in pipeline.outputFormats.value {
      return Err("Pipeline failed: " + InvalidFormatMessage(outputFormat));
    }
    r := Ok(Request(pipeline.id, inputs, reportType, outputFormat));
  }
}
