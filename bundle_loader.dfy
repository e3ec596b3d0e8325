/** Loading a bundle from its JSON text and the structural check a bundle
    must pass: a dataset name, the main sample list, statistics and metadata. */
module BundleLoader {
  import opened Wrappers
  import opened Js
  import opened Checks

  const MissingDatasetName: string := "Missing datasetName"
  const MissingSamples: string := "Missing samples.main"
  const MissingStats: string := "Missing stats"
  const MissingMetadata: string := "Missing metadata"

  /** The four checks of `validate`, in the order they run. */
  function BundleChecks(bundle: Value): seq<Check> {
    [Check(Truthy(OptGet(bundle, "datasetName")), MissingDatasetName),
     Check(Truthy(OptGet(OptGet(bundle, "samples"), "main")), MissingSamples),
     Check(Truthy(OptGet(bundle, "stats")), MissingStats),
     Check(Truthy(OptGet(bundle, "metadata")), MissingMetadata)]
  }

  /** What `validate` returns, or the TypeError it throws on a null or
      undefined bundle. */
  function Validation(bundle: Value): Result<ValidationResult> {
    if Nullish(bundle) then Err(ReadError(bundle, "datasetName"))
    else Ok(FromErrors(FailedMessages(BundleChecks(bundle))))
  }

  /** `validate`: one message per missing part, in a fixed order. */
  method Validate(bundle: Value) returns (r: Result<ValidationResult>)
    ensures r == Validation(bundle)
  {
    if Nullish(bundle) {
      return Err(ReadError(bundle, "datasetName"));
    }
    ghost var c := BundleChecks(bundle);
    var errors: seq<string> := [];
    if !Truthy(OptGet(bundle, "datasetName")) {
      errors := errors + [MissingDatasetName];
    }
    assert errors == MessageIfFailed(c[0]);
    if !Truthy(OptGet(OptGet(bundle, "samples"), "main")) {
      errors := errors + [MissingSamples];
    }
    assert errors == MessageIfFailed(c[0]) + MessageIfFailed(c[1]);
    if !Truthy(OptGet(bundle, "stats")) {
      errors := errors + [MissingStats];
    }
    assert errors == MessageIfFailed(c[0]) + MessageIfFailed(c[1]) + MessageIfFailed(c[2]);
    if !Truthy(OptGet(bundle, "metadata")) {
      errors := errors + [MissingMetadata];
    }
    assert errors == MessageIfFailed(c[0]) + MessageIfFailed(c[1]) + MessageIfFailed(c[2]) + MessageIfFailed(c[3]);
    FailedMessagesOfFour(c);
    assert errors == FailedMessages(BundleChecks(bundle));
    r := Ok(FromErrors(errors));
  }

  /** A bundle is valid exactly when all four parts are present; each
      missing part is reported by its own message and a present part never is. */
  lemma ValidIff(bundle: Value)
    requires !Nullish(bundle)
    ensures var v := Validation(bundle).value;
      var dn := Truthy(OptGet(bundle, "datasetName"));
      var sm := Truthy(OptGet(OptGet(bundle, "samples"), "main"));
      var st := Truthy(OptGet(bundle, "stats"));
      var md := Truthy(OptGet(bundle, "metadata"));
      (v.valid <==> dn && sm && st && md)
      && (v.errors.None? <==> v.valid)
      && (!v.valid ==>
            (MissingDatasetName in v.errors.value <==> !dn)
            && (MissingSamples in v.errors.value <==> !sm)
            && (MissingStats in v.errors.value <==> !st)
            && (MissingMetadata in v.errors.value <==> !md)
            && |v.errors.value| == (if dn then 0 else 1) + (if sm then 0 else 1)
                                   + (if st then 0 else 1) + (if md then 0 else 1))
  {
    var c := BundleChecks(bundle);
    FailedMessagesOfFour(c);
    FailedMessagesEmptyIff(c);
  }

  function InvalidMessage(errors: seq<string>): string {
    "Invalid bundle: " + Join(errors, ", ")
  }

  /** `loadFromFile`, given what reading and parsing the file produced:
      a bundle that fails `validate` is rejected with every error listed. */
  method LoadFromFile(parsed: Result<Value>) returns (r: Result<Value>)
    ensures parsed.Err? ==> r == parsed
    ensures parsed.Ok? && Validation(parsed.value).Err? ==> r == Err(Validation(parsed.value).msg)
    ensures parsed.Ok? && Validation(parsed.value).Ok? ==>
      var v := Validation(parsed.value).value;
      (v.valid ==> r == Ok(parsed.value))
      && (!v.valid ==> r == Err(InvalidMessage(v.errors.value)))
    ensures r.Ok? <==> parsed.Ok? && Validation(parsed.value) == Ok(ValidationResult(true, None))
  {
    if parsed.Err? {
      return parsed;
    }
    var validation := Validate(parsed.value);
    if validation.Err? {
      return Err(validation.msg);
    }
    if !validation.value.valid {
      return Err(InvalidMessage(validation.value.errors.value));
    }
    r := parsed;
  }
}
