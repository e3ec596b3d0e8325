/** The bundle a plugin hands to the report engine: a dataset name, the main
    sample records, free-form statistics and metadata. */
module BundleTypes {
  import opened Js

  datatype Bundle = Bundle(
    datasetName: string,
    samples: seq<Value>,    // `samples.main`
    stats: seq<Prop>,
    metadata: seq<Prop>)
  {
    /** The bundle as the plain JavaScript object it is at run time. */
    function ToValue(): (v: Value)
      ensures v.Obj?
      ensures Keys(v.props) == ["datasetName", "samples", "stats", "metadata"]
    {
      Obj([
        Prop("datasetName", Str(datasetName)),
        Prop("samples", Obj([Prop("main", Arr(samples))])),
        Prop("stats", Obj(stats)),
        Prop("metadata", Obj(metadata))])
    }
  }
}
