/** Structural validation of a report specification as read from YAML: data
    inputs, prompts and template. Every check runs; the messages of all
    failing checks are collected, each input and prompt error tagged with its
    index. */
module Specification {
  import opened Wrappers
  import opened Js
  import opened Checks

  /** `!x || typeof x !== "string"` fails exactly for this. */
  predicate NonEmptyString(v: Value) {
    v.Str? && v.s != ""
  }

  /** `!x || !Array.isArray(x)` fails exactly for this. */
  predicate IsArray(v: Value) {
    v.Arr?
  }

  /** `Input ${idx}: missing or invalid ${what}` */
  function InputMessage(idx: nat, what: string): string {
    "Input " + NatToString(idx) + ": missing or invalid " + what
  }

  /** `Prompt ${idx}: missing or invalid ${what}` */
  function PromptMessage(idx: nat, what: string): string {
    "Prompt " + NatToString(idx) + ": missing or invalid " + what
  }

  function InputItemChecks(item: Value, idx: nat): seq<Check> {
    [ Check(NonEmptyString(OptGet(item, "path")), InputMessage(idx, "path")),
      Check(NonEmptyString(OptGet(item, "name")), InputMessage(idx, "name")) ]
  }

  function PromptItemChecks(item: Value, idx: nat): seq<Check> {
    [ Check(NonEmptyString(OptGet(item, "file")), PromptMessage(idx, "file")),
      Check(NonEmptyString(OptGet(item, "name")), PromptMessage(idx, "name")),
      Check(IsArray(OptGet(item, "inputs")), PromptMessage(idx, "inputs array")) ]
  }

  datatype Kind = InputKind | PromptKind

  function ItemChecks(kind: Kind, item: Value, idx: nat): seq<Check> {
    match kind
    case InputKind => InputItemChecks(item, idx)
    case PromptKind => PromptItemChecks(item, idx)
  }

  /** The checks `forEach` applies to the items, in order. */
  function ItemsChecks(kind: Kind, items: seq<Value>): seq<Check>
    decreases |items|
  {
    if items == [] then []
    else ItemsChecks(kind, items[..|items| - 1]) + ItemChecks(kind, items[|items| - 1], |items| - 1)
  }

  lemma ItemsChecksSnoc(kind: Kind, items: seq<Value>, n: nat)
    requires n < |items|
    ensures ItemsChecks(kind, items[..n + 1]) == ItemsChecks(kind, items[..n]) + ItemChecks(kind, items[n], n)
  {
    assert items[..n + 1][..n] == items[..n];
  }

  /** The index of the first null or undefined item, whose property read
      throws; `|items|` when there is none. */
  function FirstNullish(items: seq<Value>): (n: nat)
    ensures n <= |items|
    ensures forall i :: 0 <= i < n ==> !Nullish(items[i])
    ensures n < |items| ==> Nullish(items[n])
  {
    if items == [] then 0
    else if Nullish(items[0]) then 0
    else 1 + FirstNullish(items[1..])
  }

  /** The first property each kind of item is read for. */
  function FirstRead(kind: Kind): string {
    match kind
    case InputKind => "path"
    case PromptKind => "file"
  }

  /** One array section (`inputs` or `prompts`) of the specification. */
  function SectionChecks(kind: Kind, v: Value): Result<seq<Check>> {
    if !IsArray(v) then
      Ok([Check(false, if kind == InputKind then "Missing or invalid inputs array" else "Missing or invalid prompts array")])
    else
      var n := FirstNullish(v.items);
      if n < |v.items| then Err(ReadError(v.items[n], FirstRead(kind)))
      else Ok(ItemsChecks(kind, v.items))
  }

  const TemplateMissing: string := "Missing or invalid template object"

  function TemplateChecks(t: Value): seq<Check> {
    if !(Truthy(t) && TypeOf(t) == "object") then [Check(false, TemplateMissing)]
    else
      var ty := OptGet(t, "type");
      [ Check(NonEmptyString(OptGet(t, "file")), "Template: missing or invalid file"),
        Check(ty == Str("njk") || ty == Str("mdx"), "Template: type must be \"njk\" or \"mdx\"") ]
  }

  /** All checks of `validateSpecification`, or the TypeError it throws. */
  function SpecChecks(spec: Value): Result<seq<Check>> {
    if Nullish(spec) then Err(ReadError(spec, "inputs"))
    else
      var inputs :- SectionChecks(InputKind, OptGet(spec, "inputs"));
      var prompts :- SectionChecks(PromptKind, OptGet(spec, "prompts"));
      Ok(inputs + prompts + TemplateChecks(OptGet(spec, "template")))
  }

  function Validation(spec: Value): Result<ValidationResult> {
    match SpecChecks(spec)
    case Err(m) => Err(m)
    case Ok(cs) => Ok(FromErrors(FailedMessages(cs)))
  }

  // ---------------------------------------------------------------
  // The validator
  // ---------------------------------------------------------------

  /** The body of the `forEach` callback for one item: the messages it pushes. */
  method CheckItem(kind: Kind, item: Value, idx: nat) returns (added: seq<string>)
    ensures added == FailedMessages(ItemChecks(kind, item, idx))
  {
    added := [];
    match kind {
      case InputKind =>
        if !NonEmptyString(OptGet(item, "path")) {
          added := added + [InputMessage(idx, "path")];
        }
        if !NonEmptyString(OptGet(item, "name")) {
          added := added + [InputMessage(idx, "name")];
        }
        FailedMessagesOfTwo(InputItemChecks(item, idx));
      case PromptKind =>
        if !NonEmptyString(OptGet(item, "file")) {
          added := added + [PromptMessage(idx, "file")];
        }
        if !NonEmptyString(OptGet(item, "name")) {
          added := added + [PromptMessage(idx, "name")];
        }
        if !IsArray(OptGet(item, "inputs")) {
          added := added + [PromptMessage(idx, "inputs array")];
        }
        FailedMessagesOfThree(PromptItemChecks(item, idx));
    }
  }

  /** The `forEach` over one array section; a null item makes the property
      read throw. */
  method CheckItems(kind: Kind, items: seq<Value>) returns (r: Result<seq<string>>)
    ensures var n := FirstNullish(items);
      if n < |items| then r == Err(ReadError(items[n], FirstRead(kind)))
      else r == Ok(FailedMessages(ItemsChecks(kind, items)))
  {
    var errors: seq<string> := [];
    var idx := 0;
    while idx < |items|
      invariant 0 <= idx <= |items|
      invariant idx <= FirstNullish(items)
      invariant errors == FailedMessages(ItemsChecks(kind, items[..idx]))
    {
      var item := items[idx];
      if Nullish(item) {
        return Err(ReadError(item, FirstRead(kind)));
      }
      var added := CheckItem(kind, item, idx);
      ItemsChecksSnoc(kind, items, idx);
      FailedMessagesAppend(ItemsChecks(kind, items[..idx]), ItemChecks(kind, item, idx));
      errors := errors + added;
      idx := idx + 1;
    }
    assert items[..|items|] == items;
    r := Ok(errors);
  }

  /** One array section: a single message when it is not an array,
      otherwise the messages of its items. */
  method CheckSection(kind: Kind, v: Value) returns (r: Result<seq<string>>)
    ensures SectionChecks(kind, v).Err? ==> r == Err(SectionChecks(kind, v).msg)
    ensures SectionChecks(kind, v).Ok? ==> r == Ok(FailedMessages(SectionChecks(kind, v).value))
  {
    if !IsArray(v) {
      var msg := if kind == InputKind then "Missing or invalid inputs array" else "Missing or invalid prompts array";
      ghost var c := SectionChecks(kind, v).value;
      assert c == [Check(false, msg)];
      assert FailedMessages(c) == MessageIfFailed(c[0]) + FailedMessages(c[1..]);
      assert c[1..] == [];
      assert FailedMessages(c) == [msg];
      return Ok([msg]);
    }
    r := CheckItems(kind, v.items);
  }

  /** The template checks, which cannot throw. */
  method CheckTemplate(t: Value) returns (added: seq<string>)
    ensures added == FailedMessages(TemplateChecks(t))
  {
    added := [];
    ghost var c := TemplateChecks(t);
    if !(Truthy(t) && TypeOf(t) == "object") {
      added := added + [TemplateMissing];
      assert FailedMessages(c) == MessageIfFailed(c[0]) + FailedMessages(c[1..]);
      assert c[1..] == [];
    } else {
      if !NonEmptyString(OptGet(t, "file")) {
        added := added + ["Template: missing or invalid file"];
      }
      var ty := OptGet(t, "type");
      if !(ty == Str("njk") || ty == Str("mdx")) {
        added := added + ["Template: type must be \"njk\" or \"mdx\""];
      }
      FailedMessagesOfTwo(c);
    }
  }

  /** `validateSpecification`: throws a TypeError for a null specification or
      a null item; otherwise reports every failing check. */
  method ValidateSpecification(spec: Value) returns (r: Result<ValidationResult>)
    ensures r == Validation(spec)
  {
    if Nullish(spec) {
      return Err(ReadError(spec, "inputs"));
    }
    var inputs := CheckSection(InputKind, OptGet(spec, "inputs"));
    if inputs.Err? {
      return Err(inputs.msg);
    }
    var prompts := CheckSection(PromptKind, OptGet(spec, "prompts"));
    if prompts.Err? {
      return Err(prompts.msg);
    }
    var template := CheckTemplate(OptGet(spec, "template"));
    ghost var c1 := SectionChecks(InputKind, OptGet(spec, "inputs")).value;
    ghost var c2 := SectionChecks(PromptKind, OptGet(spec, "prompts")).value;
    FailedMessagesAppend(c1, c2);
    FailedMessagesAppend(c1 + c2, TemplateChecks(OptGet(spec, "template")));
    r := Ok(FromErrors(inputs.value + prompts.value + template));
  }

  // ---------------------------------------------------------------
  // Properties
  // ---------------------------------------------------------------

  predicate InputOk(item: Value) {
    NonEmptyString(OptGet(item, "path")) && NonEmptyString(OptGet(item, "name"))
  }

  predicate PromptOk(item: Value) {
    NonEmptyString(OptGet(item, "file")) && NonEmptyString(OptGet(item, "name"))
    && IsArray(OptGet(item, "inputs"))
  }

  predicate ItemOk(kind: Kind, item: Value) {
    match kind
    case InputKind => InputOk(item)
    case PromptKind => PromptOk(item)
  }

  /** A specification with the shape the report engine relies on. */
  predicate WellFormed(spec: Value) {
    var inputs := OptGet(spec, "inputs");
    var prompts := OptGet(spec, "prompts");
    var t := OptGet(spec, "template");
    IsArray(inputs) && (forall i :: 0 <= i < |inputs.items| ==> InputOk(inputs.items[i]))
    && IsArray(prompts) && (forall i :: 0 <= i < |prompts.items| ==> PromptOk(prompts.items[i]))
    && t.Obj? && NonEmptyString(OptGet(t, "file"))
    && (OptGet(t, "type") == Str("njk") || OptGet(t, "type") == Str("mdx"))
  }

  lemma AllPassAppend(a: seq<Check>, b: seq<Check>)
    ensures AllPass(a + b) <==> AllPass(a) && AllPass(b)
  {
    if AllPass(a + b) {
      forall i | 0 <= i < |a| ensures a[i].ok { assert (a + b)[i] == a[i]; }
      forall i | 0 <= i < |b| ensures b[i].ok { assert (a + b)[|a| + i] == b[i]; }
    }
    if AllPass(a) && AllPass(b) {
      forall i | 0 <= i < |a + b| ensures (a + b)[i].ok {
        if i >= |a| { assert (a + b)[i] == b[i - |a|]; }
      }
    }
  }

  lemma {:induction false} ItemsChecksPass(kind: Kind, items: seq<Value>)
    ensures AllPass(ItemsChecks(kind, items)) <==> forall i :: 0 <= i < |items| ==> ItemOk(kind, items[i])
    decreases |items|
  {
    if items != [] {
      var init := items[..|items| - 1];
      var c := ItemChecks(kind, items[|items| - 1], |items| - 1);
      ItemsChecksPass(kind, init);
      AllPassAppend(ItemsChecks(kind, init), c);
      assert AllPass(c) <==> ItemOk(kind, items[|items| - 1]) by {
        if kind == InputKind {
          assert AllPass(c) <==> c[0].ok && c[1].ok;
        } else {
          assert AllPass(c) <==> c[0].ok && c[1].ok && c[2].ok;
        }
      }
      assert forall i :: 0 <= i < |init| ==> init[i] == items[i];
    }
  }

  lemma SectionPass(kind: Kind, v: Value)
    requires SectionChecks(kind, v).Ok?
    ensures AllPass(SectionChecks(kind, v).value)
        <==> IsArray(v) && forall i :: 0 <= i < |v.items| ==> ItemOk(kind, v.items[i])
  {
    if IsArray(v) {
      ItemsChecksPass(kind, v.items);
    } else {
      assert !SectionChecks(kind, v).value[0].ok;
    }
  }

  lemma TemplatePass(t: Value)
    ensures AllPass(TemplateChecks(t))
        <==> t.Obj? && NonEmptyString(OptGet(t, "file"))
             && (OptGet(t, "type") == Str("njk") || OptGet(t, "type") == Str("mdx"))
  {
    var c := TemplateChecks(t);
    if Truthy(t) && TypeOf(t) == "object" {
      assert AllPass(c) <==> c[0].ok && c[1].ok;
    } else {
      assert !c[0].ok;
    }
  }

  /** A specification is reported valid exactly when it is well formed, and
      `errors` is absent exactly then. */
  lemma ValidIffWellFormed(spec: Value)
    requires Validation(spec).Ok?
    ensures Validation(spec).value.valid <==> WellFormed(spec)
    ensures Validation(spec).value.valid <==> Validation(spec).value.errors.None?
  {
    var c1 := SectionChecks(InputKind, OptGet(spec, "inputs")).value;
    var c2 := SectionChecks(PromptKind, OptGet(spec, "prompts")).value;
    var c3 := TemplateChecks(OptGet(spec, "template"));
    assert SpecChecks(spec).value == c1 + c2 + c3;
    FailedMessagesEmptyIff(c1 + c2 + c3);
    AllPassAppend(c1 + c2, c3);
    AllPassAppend(c1, c2);
    SectionPass(InputKind, OptGet(spec, "inputs"));
    SectionPass(PromptKind, OptGet(spec, "prompts"));
    TemplatePass(OptGet(spec, "template"));
  }

  /** A missing or non-array `inputs` gives exactly one message for the
      whole section, ahead of the other sections' messages. */
  lemma InputsNotArrayOneError(spec: Value)
    requires !Nullish(spec) && !IsArray(OptGet(spec, "inputs"))
    requires SectionChecks(PromptKind, OptGet(spec, "prompts")).Ok?
    ensures Validation(spec).Ok?
    ensures Validation(spec).value.errors.Some?
    ensures Validation(spec).value.errors.value ==
      ["Missing or invalid inputs array"]
      + FailedMessages(SectionChecks(PromptKind, OptGet(spec, "prompts")).value
                       + TemplateChecks(OptGet(spec, "template")))
  {
    var c1 := SectionChecks(InputKind, OptGet(spec, "inputs")).value;
    var rest := SectionChecks(PromptKind, OptGet(spec, "prompts")).value + TemplateChecks(OptGet(spec, "template"));
    assert SpecChecks(spec).value == c1 + rest;
    FailedMessagesAppend(c1, rest);
    assert FailedMessages(c1) == ["Missing or invalid inputs array"] + FailedMessages(c1[1..]);
    assert c1[1..] == [];
  }

  /** An input without a non-empty string `path` is reported under its index. */
  lemma {:induction false} InputPathErrorTagged(items: seq<Value>, i: nat)
    requires i < |items| && !NonEmptyString(OptGet(items[i], "path"))
    ensures InputMessage(i, "path") in FailedMessages(ItemsChecks(InputKind, items))
    decreases |items|
  {
    var init := items[..|items| - 1];
    var c := ItemChecks(InputKind, items[|items| - 1], |items| - 1);
    assert ItemsChecks(InputKind, items) == ItemsChecks(InputKind, init) + c;
    FailedMessagesAppend(ItemsChecks(InputKind, init), c);
    if i == |items| - 1 {
      FailedMessageIncluded(c, 0);
    } else {
      assert init[i] == items[i];
      InputPathErrorTagged(init, i);
    }
  }

  /** A prompt without an `inputs` array is reported under its index. */
  lemma {:induction false} PromptInputsErrorTagged(items: seq<Value>, i: nat)
    requires i < |items| && !IsArray(OptGet(items[i], "inputs"))
    ensures PromptMessage(i, "inputs array") in FailedMessages(ItemsChecks(PromptKind, items))
    decreases |items|
  {
    var init := items[..|items| - 1];
    var c := ItemChecks(PromptKind, items[|items| - 1], |items| - 1);
    assert ItemsChecks(PromptKind, items) == ItemsChecks(PromptKind, init) + c;
    FailedMessagesAppend(ItemsChecks(PromptKind, init), c);
    if i == |items| - 1 {
      FailedMessageIncluded(c, 2);
    } else {
      assert init[i] == items[i];
      PromptInputsErrorTagged(init, i);
    }
  }
}
