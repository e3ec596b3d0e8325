/** A fluent builder for bundles: samples and statistics are accumulated
    step by step, and `build` checks the dataset name and stamps the record
    count into the metadata. */
module BundleBuilder {
  import opened Wrappers
  import opened Js
  import opened BundleTypes
  import BundleLoader
  import Checks

  const NoDatasetNameMessage: string := "Bundle must have a datasetName"

  /** The metadata of a fresh builder. */
  function InitialMetadata(nowIso: string): seq<Prop> {
    [Prop("totalRecords", Num(0)), Prop("ingestedAt", Str(nowIso)), Prop("source", Str("unknown"))]
  }

  class Builder {
    /** `bundle.datasetName`: absent until set. */
    var datasetName: Option<string>
    /** `bundle.samples.main` */
    var samples: seq<Value>
    var stats: seq<Prop>
    var metadata: seq<Prop>

    /** A fresh builder; the ingestion time is read from the clock. */
    constructor (nowIso: string)
      ensures datasetName.None? && samples == [] && stats == []
      ensures metadata == InitialMetadata(nowIso)
      ensures Lookup(metadata, "totalRecords") == Num(0)
      ensures Lookup(metadata, "source") == Str("unknown")
    {
      datasetName := None;
      samples := [];
      stats := [];
      metadata := InitialMetadata(nowIso);
      new;
      assert DistinctKeys(metadata);
      LookupAt(metadata, 2);
    }

    method SetDatasetName(name: string)
      modifies this
      ensures datasetName == Some(name)
      ensures samples == old(samples) && stats == old(stats) && metadata == old(metadata)
    {
      datasetName := Some(name);
    }

    /** Appends one record after the ones already added. */
    method AddSample(sample: Value)
      modifies this
      ensures samples == old(samples) + [sample]
      ensures datasetName == old(datasetName) && stats == old(stats) && metadata == old(metadata)
    {
      samples := samples + [sample];
    }

    /** Appends all records, in order, after the ones already added. */
    method AddSamples(more: seq<Value>)
      modifies this
      ensures samples == old(samples) + more
      ensures samples[..|old(samples)|] == old(samples)
      ensures datasetName == old(datasetName) && stats == old(stats) && metadata == old(metadata)
    {
      samples := samples + more;
    }

    /** Sets one statistic; every other key keeps its value. */
    method SetStat(key: string, value: Value)
      modifies this
      ensures stats == Assign(old(stats), key, value)
      ensures forall k :: Lookup(stats, k) == if k == key then value else Lookup(old(stats), k)
      ensures datasetName == old(datasetName) && samples == old(samples) && metadata == old(metadata)
    {
      stats := Assign(stats, key, value);
      forall k ensures Lookup(stats, k) == if k == key then value else Lookup(old(stats), k) {
        LookupAssign(old(stats), key, value, k);
      }
    }

    /** Merges statistics; the incoming values win. */
    method SetStats(incoming: seq<Prop>)
      modifies this
      ensures stats == Spread(old(stats), incoming)
      ensures DistinctKeys(incoming) ==>
        forall k :: Lookup(stats, k) == if k in Keys(incoming) then Lookup(incoming, k) else Lookup(old(stats), k)
      ensures datasetName == old(datasetName) && samples == old(samples) && metadata == old(metadata)
    {
      stats := Spread(stats, incoming);
      forall k | DistinctKeys(incoming) ensures Lookup(stats, k) == if k in Keys(incoming) then Lookup(incoming, k) else Lookup(old(stats), k) {
        LookupSpread(old(stats), incoming, k);
      }
    }

    /** Merges metadata; the incoming values win. */
    method SetMetadata(incoming: seq<Prop>)
      modifies this
      ensures metadata == Spread(old(metadata), incoming)
      ensures datasetName == old(datasetName) && samples == old(samples) && stats == old(stats)
    {
      metadata := Spread(metadata, incoming);
    }

    /** `build`: refuses a missing or empty dataset name; otherwise records
        the number of samples as `totalRecords`, whatever was set before. */
    method Build() returns (r: Result<Bundle>)
      modifies this
      ensures datasetName == old(datasetName) && samples == old(samples) && stats == old(stats)
      ensures (old(datasetName).None? || old(datasetName).value == "") ==>
                r == Err(NoDatasetNameMessage) && metadata == old(metadata)
      ensures r.Ok? <==> old(datasetName).Some? && old(datasetName).value != ""
      ensures r.Ok? ==>
                metadata == Assign(old(metadata), "totalRecords", Num(|samples|))
                && r.value == Bundle(datasetName.value, samples, stats, metadata)
                && Lookup(r.value.metadata, "totalRecords") == Num(|r.value.samples|)
                && r.value.datasetName != ""
    {
      if datasetName.None? || datasetName.value == "" {
        return Err(NoDatasetNameMessage);
      }
      metadata := Assign(metadata, "totalRecords", Num(|samples|));
      LookupAssign(old(metadata), "totalRecords", Num(|samples|), "totalRecords");
      r := Ok(Bundle(datasetName.value, samples, stats, metadata));
    }
  }

  /** Every bundle `build` can return passes the loader's validation: it has
      a non-empty dataset name, and its sample list, statistics and metadata
      are objects, which are always truthy. */
  lemma BuiltBundleValid(b: Bundle)
    requires b.datasetName != ""
    ensures BundleLoader.Validation(b.ToValue()) == Ok(Checks.ValidationResult(true, None))
  {
    var v := b.ToValue();
    var props := v.props;
    assert DistinctKeys(props);
    LookupAt(props, 0);
    LookupAt(props, 1);
    LookupAt(props, 2);
    LookupAt(props, 3);
    LookupAt([Prop("main", Arr(b.samples))], 0);
    BundleLoader.ValidIff(v);
  }
}
