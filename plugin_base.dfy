/** The base every plugin extends: the lifecycle state machine
    (uninitialised, initialised, cleaned up), the fixed processing sequence
    (the template method `process`) and the two validators that collect every
    error before reporting. */
module PluginBase {
  import opened Wrappers
  import opened Js
  import opened Checks
  import opened BundleTypes

  // ---------------------------------------------------------------
  // Declared inputs and specifications
  // ---------------------------------------------------------------

  datatype FieldType = StringField | NumberField | FileField | EnumField

  /** One input a user must or may supply when running the plugin. */
  datatype InputField = InputField(
    name: string,
    fieldLabel: string,
    fieldType: FieldType,
    required: bool,
    options: Option<seq<string>>)

  datatype SpecInput = SpecInput(path: string, name: string)
  datatype PromptSpec = PromptSpec(file: string, name: string, inputs: seq<string>)
  datatype TemplateType = Njk | Mdx
  datatype TemplateSpec = TemplateSpec(file: string, templateType: TemplateType)

  /** One report type a plugin can produce: data inputs, prompts, template. */
  datatype SpecConfig = SpecConfig(
    inputs: seq<SpecInput>,
    prompts: seq<PromptSpec>,
    template: TemplateSpec)

  /** One entry of the plugin's specification map, keyed by report type. */
  datatype SpecEntry = SpecEntry(reportType: string, config: SpecConfig)

  /** The specification map is an object, so each report type is a key once. */
  type SpecMap = specs: seq<SpecEntry>
    | forall i, j :: 0 <= i < j < |specs| ==> specs[i].reportType != specs[j].reportType

  function SpecKeys(specs: seq<SpecEntry>): (ks: seq<string>)
    ensures |ks| == |specs|
    ensures forall i :: 0 <= i < |specs| ==> ks[i] == specs[i].reportType
  {
    if specs == [] then [] else [specs[0].reportType] + SpecKeys(specs[1..])
  }

  /** `specifications[reportType]`, undefined when the key is absent. */
  function FindSpec(specs: seq<SpecEntry>, reportType: string): (r: Option<SpecConfig>)
    ensures r.Some? <==> reportType in SpecKeys(specs)
    ensures r.Some? ==> exists i :: 0 <= i < |specs| && specs[i] == SpecEntry(reportType, r.value)
  {
    if specs == [] then None
    else if specs[0].reportType == reportType then Some(specs[0].config)
    else
      var r := FindSpec(specs[1..], reportType);
      assert r.Some? ==> exists i :: 0 <= i < |specs| && specs[i] == SpecEntry(reportType, r.value) by {
        if r.Some? {
          var i :| 0 <= i < |specs[1..]| && specs[1..][i] == SpecEntry(reportType, r.value);
          assert specs[i + 1] == specs[1..][i];
        }
      }
      r
  }

  /** In a specification map every entry is the one its report type finds. */
  lemma {:induction false} FindSpecEntry(specs: SpecMap, i: nat)
    requires i < |specs|
    ensures FindSpec(specs, specs[i].reportType) == Some(specs[i].config)
  {
    if i > 0 {
      var rest: SpecMap := specs[1..];
      assert rest[i - 1] == specs[i];
      FindSpecEntry(rest, i - 1);
    }
  }

  // ---------------------------------------------------------------
  // Input validation
  // ---------------------------------------------------------------

  function MissingFieldMessage(name: string): string {
    "Missing required field: " + name
  }

  function InvalidEnumMessage(f: InputField): string {
    "Invalid value for " + f.name + ". Must be one of: "
      + (match f.options case Some(opts) => Join(opts, ", ") case None => "undefined")
  }

  function NotNumberMessage(name: string): string {
    name + " must be a number"
  }

  /** `options?.includes(v)` */
  predicate Includes(options: Option<seq<string>>, v: Value) {
    options.Some? && v.Str? && v.s in options.value
  }

  /** The three checks the validator applies to one declared field. */
  function FieldChecks(f: InputField, inputs: seq<Prop>): seq<Check> {
    var v := Lookup(inputs, f.name);
    [ Check(!(f.required && !Truthy(v)), MissingFieldMessage(f.name)),
      Check(!(f.fieldType == EnumField && Truthy(v)) || Includes(f.options, v), InvalidEnumMessage(f)),
      Check(!(f.fieldType == NumberField && !v.Undefined?) || Numeric(v), NotNumberMessage(f.name)) ]
  }

  function InputChecks(fields: seq<InputField>, inputs: seq<Prop>): seq<Check>
    decreases |fields|
  {
    if fields == [] then []
    else InputChecks(fields[..|fields| - 1], inputs) + FieldChecks(fields[|fields| - 1], inputs)
  }

  /** The errors `validateInputs` pushes, in push order. */
  function InputErrors(fields: seq<InputField>, inputs: seq<Prop>): seq<string> {
    FailedMessages(InputChecks(fields, inputs))
  }

  /** A field's value is acceptable: present when required, one of the
      options when an enum is given, numeric when a number is given. */
  predicate FieldOk(f: InputField, inputs: seq<Prop>) {
    var v := Lookup(inputs, f.name);
    (f.required ==> Truthy(v))
    && (f.fieldType == EnumField && Truthy(v) ==> f.options.Some? && v.Str? && v.s in f.options.value)
    && (f.fieldType == NumberField && !v.Undefined? ==> Numeric(v))
  }

  lemma FieldChecksPass(f: InputField, inputs: seq<Prop>)
    ensures AllPass(FieldChecks(f, inputs)) <==> FieldOk(f, inputs)
  {
    var c := FieldChecks(f, inputs);
    assert AllPass(c) <==> c[0].ok && c[1].ok && c[2].ok;
  }

  lemma {:induction false} InputChecksPass(fields: seq<InputField>, inputs: seq<Prop>)
    ensures AllPass(InputChecks(fields, inputs)) <==> forall i :: 0 <= i < |fields| ==> FieldOk(fields[i], inputs)
    decreases |fields|
  {
    if fields != [] {
      var init := fields[..|fields| - 1];
      var last := fields[|fields| - 1];
      InputChecksPass(init, inputs);
      FieldChecksPass(last, inputs);
      var a := InputChecks(init, inputs);
      var b := FieldChecks(last, inputs);
      assert AllPass(a + b) <==> AllPass(a) && AllPass(b) by {
        if AllPass(a) && AllPass(b) {
          forall i | 0 <= i < |a + b| ensures (a + b)[i].ok {
            if i >= |a| { assert (a + b)[i] == b[i - |a|]; }
          }
        }
        if AllPass(a + b) {
          forall i | 0 <= i < |a| ensures a[i].ok { assert (a + b)[i] == a[i]; }
          forall i | 0 <= i < |b| ensures b[i].ok { assert (a + b)[|a| + i] == b[i]; }
        }
      }
      assert forall i :: 0 <= i < |init| ==> init[i] == fields[i];
    }
  }

  /** Inputs are valid exactly when every declared field is acceptable, and
      `errors` is absent exactly then. */
  lemma InputsValidIff(fields: seq<InputField>, inputs: seq<Prop>)
    ensures FromErrors(InputErrors(fields, inputs)).valid
        <==> forall i :: 0 <= i < |fields| ==> FieldOk(fields[i], inputs)
    ensures FromErrors(InputErrors(fields, inputs)).valid
        <==> FromErrors(InputErrors(fields, inputs)).errors.None?
  {
    InputChecksPass(fields, inputs);
    FailedMessagesEmptyIff(InputChecks(fields, inputs));
  }

  /** A required field whose value is falsy ("" and 0 included) is reported. */
  lemma {:induction false} MissingRequiredReported(fields: seq<InputField>, inputs: seq<Prop>, i: nat)
    requires i < |fields| && fields[i].required && !Truthy(Lookup(inputs, fields[i].name))
    ensures MissingFieldMessage(fields[i].name) in InputErrors(fields, inputs)
    decreases |fields|
  {
    var init := fields[..|fields| - 1];
    var c := InputChecks(init, inputs);
    var b := FieldChecks(fields[|fields| - 1], inputs);
    FailedMessagesAppend(c, b);
    if i == |fields| - 1 {
      FailedMessageIncluded(b, 0);
    } else {
      assert init[i] == fields[i];
      MissingRequiredReported(init, inputs, i);
    }
  }

  /** The checks of one declared field, in the order `validateInputs` runs them. */
  method FieldErrors(f: InputField, inputs: seq<Prop>) returns (added: seq<string>)
    ensures added == FailedMessages(FieldChecks(f, inputs))
  {
    var v := Lookup(inputs, f.name);
    added := [];
    if f.required && !Truthy(v) {
      added := added + [MissingFieldMessage(f.name)];
    }
    if f.fieldType == EnumField && Truthy(v) {
      if !Includes(f.options, v) {
        added := added + [InvalidEnumMessage(f)];
      }
    }
    if f.fieldType == NumberField && !v.Undefined? {
      if !Numeric(v) {
        added := added + [NotNumberMessage(f.name)];
      }
    }
    FailedMessagesOfThree(FieldChecks(f, inputs));
  }

  /** `validateInputs`: walks the declared fields and pushes each failing check. */
  method ValidateInputs(fields: seq<InputField>, inputs: seq<Prop>) returns (r: ValidationResult)
    ensures r == FromErrors(InputErrors(fields, inputs))
  {
    var errors: seq<string> := [];
    var i := 0;
    while i < |fields|
      invariant 0 <= i <= |fields|
      invariant errors == InputErrors(fields[..i], inputs)
    {
      var added := FieldErrors(fields[i], inputs);
      assert fields[..i + 1][..i] == fields[..i];
      FailedMessagesAppend(InputChecks(fields[..i], inputs), FieldChecks(fields[i], inputs));
      errors := errors + added;
      i := i + 1;
    }
    assert fields[..|fields|] == fields;
    r := FromErrors(errors);
  }

  // ---------------------------------------------------------------
  // Metadata validation
  // ---------------------------------------------------------------

  /** `/^\d+\.\d+\.\d+/`: three dot-separated digit runs at the start. */
  predicate VersionOk(v: string) {
    var a := DigitsEnd(v, 0);
    a > 0 && a < |v| && v[a] == '.' &&
    var b := DigitsEnd(v, a + 1);
    b > a + 1 && b < |v| && v[b] == '.' &&
    DigitsEnd(v, b + 1) > b + 1
  }

  predicate AllDigits(s: string) {
    forall k :: 0 <= k < |s| ==> IsDigit(s[k])
  }

  /** The version starts with `x.y.z` for some non-empty digit runs. */
  ghost predicate SemverPrefix(v: string) {
    exists x: string, y: string, z: string ::
      x != [] && y != [] && z != [] && AllDigits(x) && AllDigits(y) && AllDigits(z)
      && StartsWith(v, x + "." + y + "." + z)
  }

  lemma DigitsEndAt(s: string, start: nat, e: nat)
    requires start <= e <= |s|
    requires forall k :: start <= k < e ==> IsDigit(s[k])
    ensures DigitsEnd(s, start) >= e
    decreases e - start
  {
    if start < e {
      DigitsEndAt(s, start + 1, e);
    }
  }

  lemma DigitsEndStops(s: string, start: nat, e: nat)
    requires start <= e < |s|
    requires forall k :: start <= k < e ==> IsDigit(s[k])
    requires !IsDigit(s[e])
    ensures DigitsEnd(s, start) == e
    decreases e - start
  {
    if start < e {
      DigitsEndStops(s, start + 1, e);
    }
  }

  lemma PrefixDigits(v: string, w: string, x: string, off: nat)
    requires StartsWith(v, w) && off + |x| <= |w| && w[off..off + |x|] == x && AllDigits(x)
    ensures forall k :: off <= k < off + |x| ==> IsDigit(v[k])
  {
    forall k | off <= k < off + |x| ensures IsDigit(v[k]) {
      assert v[k] == v[..|w|][k] == w[k] == w[off..off + |x|][k - off];
    }
  }

  lemma VersionOkSound(v: string)
    requires VersionOk(v)
    ensures SemverPrefix(v)
  {
    var a := DigitsEnd(v, 0);
    var b := DigitsEnd(v, a + 1);
    var c := DigitsEnd(v, b + 1);
    DigitRun(v, 0, a);
    DigitRun(v, a + 1, b);
    DigitRun(v, b + 1, c);
    DottedSlice(v, a, b, c);
    SemverFrom(v, v[..a], v[a + 1..b], v[b + 1..c]);
  }

  lemma DottedSlice(v: string, a: nat, b: nat, c: nat)
    requires a < b < c <= |v| && v[a] == '.' && v[b] == '.'
    ensures StartsWith(v, v[..a] + "." + v[a + 1..b] + "." + v[b + 1..c])
  {
    var x, y, z := v[..a], v[a + 1..b], v[b + 1..c];
    assert v[b..c] == [v[b]] + z;
    assert v[a + 1..c] == y + v[b..c];
    assert v[a..c] == [v[a]] + v[a + 1..c];
    assert v[..c] == x + v[a..c];
  }

  lemma SemverFrom(v: string, x: string, y: string, z: string)
    requires x != [] && y != [] && z != [] && AllDigits(x) && AllDigits(y) && AllDigits(z)
    requires StartsWith(v, x + "." + y + "." + z)
    ensures SemverPrefix(v)
  {
  }

  /** The digits `DigitsEnd` scans over form an all-digit slice. */
  lemma DigitRun(v: string, i: nat, j: nat)
    requires i <= |v| && j == DigitsEnd(v, i)
    ensures AllDigits(v[i..j])
  {
    forall k | 0 <= k < j - i ensures IsDigit(v[i..j][k]) {
      assert v[i..j][k] == v[i + k];
    }
  }

  lemma VersionOkComplete(v: string)
    requires SemverPrefix(v)
    ensures VersionOk(v)
  {
    var x: string, y: string, z: string :|
      x != [] && y != [] && z != [] && AllDigits(x) && AllDigits(y) && AllDigits(z)
      && StartsWith(v, x + "." + y + "." + z);
    VersionOkFrom(v, x, y, z);
  }

  lemma VersionOkFrom(v: string, x: string, y: string, z: string)
    requires x != [] && y != [] && z != [] && AllDigits(x) && AllDigits(y) && AllDigits(z)
    requires StartsWith(v, x + "." + y + "." + z)
    ensures VersionOk(v)
  {
    var w1 := x + ".";
    var w2 := w1 + y + ".";
    var w := w2 + z;
    assert w == x + "." + y + "." + z;
    var a := |x|;
    var b := a + 1 + |y|;
    assert w[0..a] == x by { assert w[0..a] == w1[0..a]; }
    assert w[a + 1..b] == y by { assert w[a + 1..b] == w2[a + 1..b]; }
    assert w[b + 1..|w|] == z;
    assert w[a] == w1[a] == '.';
    assert w[b] == w2[b] == '.';
    assert v[a] == w[a] && v[b] == w[b] by { assert v[..|w|] == w; }
    PrefixDigits(v, w, x, 0);
    PrefixDigits(v, w, y, a + 1);
    PrefixDigits(v, w, z, b + 1);
    DigitsEndStops(v, 0, a);
    DigitsEndStops(v, a + 1, b);
    DigitsEndAt(v, b + 1, |w|);
  }

  /** The hand-written prefix scan agrees with the regular expression. */
  lemma VersionOkIff(v: string)
    ensures VersionOk(v) <==> SemverPrefix(v)
  {
    if VersionOk(v) { VersionOkSound(v); }
    if SemverPrefix(v) { VersionOkComplete(v); }
  }

  /** The six metadata checks, in the order their messages are pushed. */
  function MetadataChecks(id: string, version: string, name: string, description: string,
                          inputs: Option<seq<InputField>>, outputFormats: Option<seq<string>>): seq<Check>
  {
    [ Check(id != "" && Contains(id, "."), "Plugin ID must be in format: org.plugin-name"),
      Check(version != "" && VersionOk(version), "Version must follow semantic versioning (e.g., 1.0.0)"),
      Check(!Blank(name), "Plugin name is required"),
      Check(!Blank(description), "Plugin description is required"),
      Check(inputs.Some?, "Inputs must be an array"),
      Check(outputFormats.Some? && outputFormats.value != [], "Must specify at least one output format") ]
  }

  /** Metadata that `validatePluginMetadata` accepts. */
  ghost predicate MetadataOk(id: string, version: string, name: string, description: string,
                       inputs: Option<seq<InputField>>, outputFormats: Option<seq<string>>)
  {
    Contains(id, ".") && SemverPrefix(version) && !Blank(name) && !Blank(description)
    && inputs.Some? && outputFormats.Some? && outputFormats.value != []
  }

  /** No metadata error is collected exactly when the metadata is acceptable;
      otherwise every violated rule contributes its message. */
  lemma MetadataErrorsIff(id: string, version: string, name: string, description: string,
                          inputs: Option<seq<InputField>>, outputFormats: Option<seq<string>>)
    ensures var c := MetadataChecks(id, version, name, description, inputs, outputFormats);
      (FailedMessages(c) == [] <==> MetadataOk(id, version, name, description, inputs, outputFormats))
      && forall i :: 0 <= i < |c| && !c[i].ok ==> c[i].msg in FailedMessages(c)
  {
    var c := MetadataChecks(id, version, name, description, inputs, outputFormats);
    FailedMessagesEmptyIff(c);
    VersionOkIff(version);
    if Contains(id, ".") { assert id != ""; }
    if SemverPrefix(version) {
      var x: string, y: string, z: string :|
        x != [] && y != [] && z != [] && AllDigits(x) && AllDigits(y) && AllDigits(z)
        && StartsWith(version, x + "." + y + "." + z);
      assert version != "";
    }
    assert AllPass(c) <==> c[0].ok && c[1].ok && c[2].ok && c[3].ok && c[4].ok && c[5].ok;
    forall i | 0 <= i < |c| && !c[i].ok ensures c[i].msg in FailedMessages(c) {
      FailedMessageIncluded(c, i);
    }
  }

  function MetadataFailureMessage(errors: seq<string>): string {
    "Plugin validation failed:\n" + Join(errors, "\n")
  }

  // ---------------------------------------------------------------
  // Default hooks
  // ---------------------------------------------------------------

  /** Default `computeStatistics`: the record count and the first and last records. */
  function DefaultStatistics(data: seq<Value>): seq<Prop> {
    [ Prop("count", Num(|data|)),
      Prop("firstRecord", if data == [] then Undefined else data[0]),
      Prop("lastRecord", if data == [] then Undefined else data[|data| - 1]) ]
  }

  /** `inputs.dataPath || inputs.apiEndpoint || "unknown"` */
  function DataSource(inputs: seq<Prop>): Value {
    Or(Or(Lookup(inputs, "dataPath"), Lookup(inputs, "apiEndpoint")), Str("unknown"))
  }

  /** Default `buildBundle`. */
  function DefaultBundle(id: string, version: string, data: seq<Value>, stats: seq<Prop>,
                         inputs: seq<Prop>, nowIso: string): Bundle
  {
    Bundle(id, data, stats, [
      Prop("totalRecords", Num(|data|)),
      Prop("ingestedAt", Str(nowIso)),
      Prop("source", DataSource(inputs)),
      Prop("pluginId", Str(id)),
      Prop("pluginVersion", Str(version))])
  }

  /** The default statistics count the records and expose the first and
      last one (undefined for an empty data set). */
  lemma DefaultStatisticsShape(data: seq<Value>)
    ensures var s := DefaultStatistics(data);
      Keys(s) == ["count", "firstRecord", "lastRecord"]
      && Lookup(s, "count") == Num(|data|)
      && Lookup(s, "firstRecord") == (if data == [] then Undefined else data[0])
      && Lookup(s, "lastRecord") == (if data == [] then Undefined else data[|data| - 1])
  {
    var s := DefaultStatistics(data);
    LookupAt(s, 0);
    LookupAt(s, 1);
    LookupAt(s, 2);
    assert Keys(s)[0] == "count" && Keys(s)[1] == "firstRecord" && Keys(s)[2] == "lastRecord";
  }

  /** The default bundle holds the data as its main samples, records their
      number, names the plugin and takes its source from the inputs. */
  lemma DefaultBundleShape(id: string, version: string, data: seq<Value>, stats: seq<Prop>,
                           inputs: seq<Prop>, nowIso: string)
    ensures var b := DefaultBundle(id, version, data, stats, inputs, nowIso);
      b.datasetName == id && b.samples == data && b.stats == stats
      && Lookup(b.metadata, "totalRecords") == Num(|b.samples|)
      && Lookup(b.metadata, "ingestedAt") == Str(nowIso)
      && Lookup(b.metadata, "source") ==
           (if Truthy(Lookup(inputs, "dataPath")) then Lookup(inputs, "dataPath")
            else if Truthy(Lookup(inputs, "apiEndpoint")) then Lookup(inputs, "apiEndpoint")
            else Str("unknown"))
      && Lookup(b.metadata, "pluginId") == Str(id)
      && Lookup(b.metadata, "pluginVersion") == Str(version)
  {
    var m := DefaultBundle(id, version, data, stats, inputs, nowIso).metadata;
    LookupAt(m, 0);
    LookupAt(m, 1);
    LookupAt(m, 2);
    LookupAt(m, 3);
    LookupAt(m, 4);
  }

  // ---------------------------------------------------------------
  // The processing sequence
  // ---------------------------------------------------------------

  /** The code a concrete plugin supplies. `None` keeps the default hook. */
  datatype Hooks = Hooks(
    onInit: Outcome,
    beforeProcess: seq<Prop> -> Outcome,
    validateInputs: Option<seq<Prop> -> Result<ValidationResult>>,
    loadData: seq<Prop> -> Result<seq<Value>>,
    transformData: Option<(seq<Value>, seq<Prop>) -> Result<seq<Value>>>,
    computeStatistics: Option<(seq<Value>, seq<Prop>) -> Result<seq<Prop>>>,
    buildBundle: Option<(seq<Value>, seq<Prop>, seq<Prop>) -> Result<Bundle>>,
    afterProcess: Bundle -> Outcome,
    onError: (string, seq<Prop>) -> Outcome,
    onCleanup: Outcome)

  /** The steps of `process`, as they are called. */
  datatype Stage = BeforeProcess | LoadData | TransformData | ComputeStatistics
                 | BuildBundle | AfterProcess | OnError

  const FullRun: seq<Stage> := [BeforeProcess, LoadData, TransformData, ComputeStatistics, BuildBundle, AfterProcess]

  /** What a call of `process` returns or throws, and the steps it called. */
  datatype Trace = Trace(result: Result<Bundle>, calls: seq<Stage>)

  /** The catch block: run `onError`, then rethrow (an error thrown by
      `onError` itself escapes instead). */
  function Failed(h: Hooks, inputs: seq<Prop>, msg: string, calls: seq<Stage>): (t: Trace)
    requires calls != [] && calls <= FullRun
    ensures t.result.Err? && t.calls == calls + [OnError] && t.calls != FullRun
    ensures |t.calls| >= 2 && t.calls[|t.calls| - 1] == OnError && t.calls[..|t.calls| - 1] <= FullRun
  {
    assert (calls + [OnError])[..|calls|] == calls;
    assert (calls + [OnError])[|calls|] != FullRun[|FullRun| - 1];
    var e := h.onError(msg, inputs);
    Trace(Err(if e.Fail? then e.msg else msg), calls + [OnError])
  }

  function InputValidationMessage(errors: seq<string>): string {
    "Input validation failed: " + Join(errors, ", ")
  }

  /** `Input validation failed: ${validation.errors?.join(", ")}`: an
      overriding validator may leave `errors` undefined. */
  function ValidationFailureMessage(v: ValidationResult): string {
    match v.errors
    case Some(errors) => InputValidationMessage(errors)
    case None => "Input validation failed: undefined"
  }

  /** `this.validateInputs(inputs)`: the base validator, or the plugin's
      override, which may also throw. */
  function Validation(h: Hooks, fields: seq<InputField>, inputs: seq<Prop>): Result<ValidationResult> {
    match h.validateInputs
    case None => Ok(FromErrors(InputErrors(fields, inputs)))
    case Some(f) => f(inputs)
  }

  /** Validation let the run go on to `loadData`. */
  predicate Accepted(h: Hooks, fields: seq<InputField>, inputs: seq<Prop>) {
    h.beforeProcess(inputs).Pass? && Validation(h, fields, inputs).Ok? && Validation(h, fields, inputs).value.valid
  }

  function Transform(h: Hooks, data: seq<Value>, inputs: seq<Prop>): Result<seq<Value>> {
    match h.transformData
    case None => Ok(data)
    case Some(f) => f(data, inputs)
  }

  function Statistics(h: Hooks, data: seq<Value>, inputs: seq<Prop>): Result<seq<Prop>> {
    match h.computeStatistics
    case None => Ok(DefaultStatistics(data))
    case Some(f) => f(data, inputs)
  }

  function Build(h: Hooks, id: string, version: string, data: seq<Value>, stats: seq<Prop>,
                 inputs: seq<Prop>, nowIso: string): Result<Bundle> {
    match h.buildBundle
    case None => Ok(DefaultBundle(id, version, data, stats, inputs, nowIso))
    case Some(f) => f(data, stats, inputs)
  }

  /** The template method's body on an initialised plugin. A run either
      calls every step in order and returns a bundle, or stops at a failing
      step, calls `onError` and throws. */
  function Pipeline(id: string, version: string, fields: seq<InputField>, h: Hooks,
                    inputs: seq<Prop>, nowIso: string): (t: Trace)
    ensures t.result.Ok? <==> t.calls == FullRun
    ensures t.result.Err? ==> |t.calls| >= 2 && t.calls[|t.calls| - 1] == OnError
                              && t.calls[..|t.calls| - 1] <= FullRun
  {
    var before := h.beforeProcess(inputs);
    if before.Fail? then Failed(h, inputs, before.msg, [BeforeProcess])
    else
      var validation := Validation(h, fields, inputs);
      if validation.Err? then Failed(h, inputs, validation.msg, [BeforeProcess])
      else if !validation.value.valid then Failed(h, inputs, ValidationFailureMessage(validation.value), [BeforeProcess])
      else
        var raw := h.loadData(inputs);
        if raw.Err? then Failed(h, inputs, raw.msg, FullRun[..2])
        else
          var data := Transform(h, raw.value, inputs);
          if data.Err? then Failed(h, inputs, data.msg, FullRun[..3])
          else
            var stats := Statistics(h, data.value, inputs);
            if stats.Err? then Failed(h, inputs, stats.msg, FullRun[..4])
            else
              var bundle := Build(h, id, version, data.value, stats.value, inputs, nowIso);
              if bundle.Err? then Failed(h, inputs, bundle.msg, FullRun[..5])
              else
                var after := h.afterProcess(bundle.value);
                if after.Fail? then Failed(h, inputs, after.msg, FullRun)
                else Trace(Ok(bundle.value), FullRun)
  }

  /** Invalid inputs stop the run before any data is loaded; with the base
      validator the error lists every failed check. */
  lemma InvalidInputsStopBeforeLoad(id: string, version: string, fields: seq<InputField>, h: Hooks,
                                    inputs: seq<Prop>, nowIso: string)
    requires h.beforeProcess(inputs).Pass?
    requires !Accepted(h, fields, inputs)
    ensures var t := Pipeline(id, version, fields, h, inputs, nowIso);
      t.result.Err? && LoadData !in t.calls
      && (h.validateInputs.None? && h.onError(InputValidationMessage(InputErrors(fields, inputs)), inputs).Pass? ==>
            t.result.msg == InputValidationMessage(InputErrors(fields, inputs))
            && !FromErrors(InputErrors(fields, inputs)).valid)
  {
    var v := Validation(h, fields, inputs);
    if v.Ok? {
      assert !v.value.valid;
      assert Pipeline(id, version, fields, h, inputs, nowIso)
          == Failed(h, inputs, ValidationFailureMessage(v.value), [BeforeProcess]);
    }
  }

  /** Whichever of the first steps throws (`beforeProcess`, the validator
      or `loadData`), `onError` runs right after it and the same error is
      rethrown; the steps after it are never called. */
  lemma StepFailureRethrown(id: string, version: string, fields: seq<InputField>, h: Hooks,
                            inputs: seq<Prop>, nowIso: string, msg: string)
    requires h.onError(msg, inputs).Pass?
    ensures var t := Pipeline(id, version, fields, h, inputs, nowIso);
      (h.beforeProcess(inputs) == Fail(msg) ==>
         t == Trace(Err(msg), [BeforeProcess, OnError]))
      && (h.beforeProcess(inputs).Pass? && Validation(h, fields, inputs) == Err(msg) ==>
         t == Trace(Err(msg), [BeforeProcess, OnError]))
      && (Accepted(h, fields, inputs) && h.loadData(inputs) == Err(msg) ==>
         t == Trace(Err(msg), [BeforeProcess, LoadData, OnError]))
  {
    assert FullRun[..2] == [BeforeProcess, LoadData];
  }

  /** The same for the later steps: a throwing `transformData`,
      `computeStatistics`, `buildBundle` or `afterProcess` is followed by
      `onError` alone, and its error is rethrown. */
  lemma LaterStepFailureRethrown(id: string, version: string, fields: seq<InputField>, h: Hooks,
                                 inputs: seq<Prop>, nowIso: string, msg: string)
    requires h.onError(msg, inputs).Pass?
    requires Accepted(h, fields, inputs) && h.loadData(inputs).Ok?
    ensures var t := Pipeline(id, version, fields, h, inputs, nowIso);
      var data := Transform(h, h.loadData(inputs).value, inputs);
      (data == Err(msg) ==>
         t == Trace(Err(msg), [BeforeProcess, LoadData, TransformData, OnError]))
      && (data.Ok? && Statistics(h, data.value, inputs) == Err(msg) ==>
         t == Trace(Err(msg), [BeforeProcess, LoadData, TransformData, ComputeStatistics, OnError]))
      && (data.Ok? && Statistics(h, data.value, inputs).Ok?
          && Build(h, id, version, data.value, Statistics(h, data.value, inputs).value, inputs, nowIso) == Err(msg) ==>
         t == Trace(Err(msg), [BeforeProcess, LoadData, TransformData, ComputeStatistics, BuildBundle, OnError]))
      && (data.Ok? && Statistics(h, data.value, inputs).Ok?
          && Build(h, id, version, data.value, Statistics(h, data.value, inputs).value, inputs, nowIso).Ok?
          && h.afterProcess(Build(h, id, version, data.value, Statistics(h, data.value, inputs).value,
                                  inputs, nowIso).value) == Fail(msg) ==>
         t == Trace(Err(msg), FullRun + [OnError]))
  {
    var data := Transform(h, h.loadData(inputs).value, inputs);
    if data.Err? {
      assert FullRun[..3] == [BeforeProcess, LoadData, TransformData];
    } else if Statistics(h, data.value, inputs).Err? {
      assert FullRun[..4] == [BeforeProcess, LoadData, TransformData, ComputeStatistics];
    } else {
      assert FullRun[..5] == [BeforeProcess, LoadData, TransformData, ComputeStatistics, BuildBundle];
    }
  }

  /** With the default hooks, a produced bundle carries every loaded record
      and a record count equal to the number of samples. */
  lemma DefaultHooksKeepRecordCount(id: string, version: string, fields: seq<InputField>, h: Hooks,
                                    inputs: seq<Prop>, nowIso: string)
    requires h.transformData.None? && h.computeStatistics.None? && h.buildBundle.None?
    requires Pipeline(id, version, fields, h, inputs, nowIso).result.Ok?
    ensures var b := Pipeline(id, version, fields, h, inputs, nowIso).result.value;
      h.loadData(inputs).Ok? && b.samples == h.loadData(inputs).value
      && b.datasetName == id
      && Lookup(b.metadata, "totalRecords") == Num(|b.samples|)
      && Lookup(b.stats, "count") == Num(|b.samples|)
  {
    var raw := h.loadData(inputs).value;
    DefaultStatisticsShape(raw);
    DefaultBundleShape(id, version, raw, DefaultStatistics(raw), inputs, nowIso);
  }

  // ---------------------------------------------------------------
  // The plugin object
  // ---------------------------------------------------------------

  /** What the framework passes to `initialize`. */
  datatype Context = Context(workDir: string, frameworkVersion: string)

  function AlreadyInitializedMessage(id: string): string {
    "Plugin " + id + " already initialized"
  }

  function NotInitializedMessage(id: string): string {
    "Plugin " + id + " not initialized. Call initialize() first."
  }

  class Plugin {
    const id: string
    const version: string
    const name: string
    const description: string
    const inputs: Option<seq<InputField>>       // None: not an array
    const outputFormats: Option<seq<string>>    // None: not an array
    const specifications: SpecMap
    const promptsDir: string
    const templatesDir: string
    const hooks: Hooks

    var initialized: bool
    var ctx: Option<Context>
    var processingStartTime: int

    /** Only a plugin whose metadata passed validation is ever initialised. */
    ghost predicate Valid()
      reads this
    {
      initialized ==> MetadataOk(id, version, name, description, inputs, outputFormats)
    }

    constructor (id: string, version: string, name: string, description: string,
                 inputs: Option<seq<InputField>>, outputFormats: Option<seq<string>>,
                 specifications: SpecMap, promptsDir: string, templatesDir: string,
                 hooks: Hooks)
      ensures this.id == id && this.version == version && this.name == name
      ensures this.description == description && this.inputs == inputs
      ensures this.outputFormats == outputFormats && this.specifications == specifications
      ensures this.promptsDir == promptsDir && this.templatesDir == templatesDir
      ensures this.hooks == hooks
      ensures !initialized && ctx.None? && processingStartTime == 0
      ensures Valid()
    {
      this.id := id;
      this.version := version;
      this.name := name;
      this.description := description;
      this.inputs := inputs;
      this.outputFormats := outputFormats;
      this.specifications := specifications;
      this.promptsDir := promptsDir;
      this.templatesDir := templatesDir;
      this.hooks := hooks;
      initialized := false;
      ctx := None;
      processingStartTime := 0;
    }

    function MetadataErrors(): seq<string> {
      FailedMessages(MetadataChecks(id, version, name, description, inputs, outputFormats))
    }

    /** `initialize`: refuses a second call, validates the metadata, runs
        `onInit`, and only then marks the plugin initialised. */
    method Initialize(c: Context) returns (r: Outcome)
      requires Valid()
      modifies this
      ensures Valid()
      ensures processingStartTime == old(processingStartTime)
      ensures old(initialized) ==> r == Fail(AlreadyInitializedMessage(id))
                                   && initialized && ctx == old(ctx)
      ensures !old(initialized) ==> ctx == Some(c)
      ensures !old(initialized) && MetadataErrors() != [] ==>
                r == Fail(MetadataFailureMessage(MetadataErrors())) && !initialized
      ensures !old(initialized) && MetadataErrors() == [] ==>
                r == hooks.onInit && (initialized <==> r.Pass?)
    {
      if initialized {
        return Fail(AlreadyInitializedMessage(id));
      }
      ctx := Some(c);
      var errors := MetadataErrors();
      if errors != [] {
        return Fail(MetadataFailureMessage(errors));
      }
      if hooks.onInit.Fail? {
        return hooks.onInit;
      }
      MetadataErrorsIff(id, version, name, description, inputs, outputFormats);
      initialized := true;
      r := Pass;
    }

    /** `process`: the template method. Refuses an uninitialised plugin;
        never changes the lifecycle state. */
    method Process(args: seq<Prop>, nowMs: int, nowIso: string) returns (r: Result<Bundle>, calls: seq<Stage>)
      requires Valid()
      modifies this
      ensures initialized == old(initialized) && ctx == old(ctx) && Valid()
      ensures !old(initialized) ==> r == Err(NotInitializedMessage(id)) && calls == []
                                    && processingStartTime == old(processingStartTime)
      ensures old(initialized) ==>
        (inputs.Some? && processingStartTime == nowMs
         && Trace(r, calls) == Pipeline(id, version, inputs.value, hooks, args, nowIso))
    {
      if !initialized {
        return Err(NotInitializedMessage(id)), [];
      }
      processingStartTime := nowMs;
      var fields := inputs.value;
      var t: Trace;
      var before := hooks.beforeProcess(args);
      if before.Fail? {
        t := Failed(hooks, args, before.msg, [BeforeProcess]);
        return t.result, t.calls;
      }
      var validation: ValidationResult;
      if hooks.validateInputs.None? {
        validation := ValidateInputs(fields, args);
      } else {
        var custom := hooks.validateInputs.value(args);
        if custom.Err? {
          t := Failed(hooks, args, custom.msg, [BeforeProcess]);
          return t.result, t.calls;
        }
        validation := custom.value;
      }
      if !validation.valid {
        t := Failed(hooks, args, ValidationFailureMessage(validation), [BeforeProcess]);
        return t.result, t.calls;
      }
      var raw := hooks.loadData(args);
      if raw.Err? {
        t := Failed(hooks, args, raw.msg, FullRun[..2]);
        return t.result, t.calls;
      }
      var data := Transform(hooks, raw.value, args);
      if data.Err? {
        t := Failed(hooks, args, data.msg, FullRun[..3]);
        return t.result, t.calls;
      }
      var stats := Statistics(hooks, data.value, args);
      if stats.Err? {
        t := Failed(hooks, args, stats.msg, FullRun[..4]);
        return t.result, t.calls;
      }
      var bundle := Build(hooks, id, version, data.value, stats.value, args, nowIso);
      if bundle.Err? {
        t := Failed(hooks, args, bundle.msg, FullRun[..5]);
        return t.result, t.calls;
      }
      var after := hooks.afterProcess(bundle.value);
      if after.Fail? {
        t := Failed(hooks, args, after.msg, FullRun);
        return t.result, t.calls;
      }
      r, calls := Ok(bundle.value), FullRun;
    }

    /** `cleanup`: runs `onCleanup`, then marks the plugin uninitialised;
        a throwing `onCleanup` leaves the flag as it was. */
    method Cleanup() returns (r: Outcome)
      requires Valid()
      modifies this
      ensures Valid()
      ensures r == hooks.onCleanup
      ensures ctx == old(ctx) && processingStartTime == old(processingStartTime)
      ensures initialized == (r.Fail? && old(initialized))
    {
      r := hooks.onCleanup;
      if r.Pass? {
        initialized := false;
      }
    }
  }
}
