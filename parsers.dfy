/** The parts of the file parsers that decide things: how `readBatched`
    cuts the record stream into batches, and which parser a file name
    selects. Reading and parsing files is not part of this model: the
    records arrive as a sequence. */
module Parsers {
  import opened Wrappers
  import opened Js

  // ---------------------------------------------------------------
  // CSVParser.readBatched
  // ---------------------------------------------------------------

  function Concat<T>(batches: seq<seq<T>>): seq<T> {
    if batches == [] then [] else Concat(batches[..|batches| - 1]) + batches[|batches| - 1]
  }

  /** The size at which `batch.length >= batchSize` first holds after a
      push: a size below 1 still lets one record in. */
  function Width(batchSize: int): nat {
    if batchSize < 1 then 1 else batchSize
  }

  /** The `Transform` stream of `readBatched`: `batch` is the buffer,
      `emitted` the arguments of the `onBatch` calls made so far. */
  class Batcher<T> {
    const batchSize: int
    var batch: seq<T>
    var emitted: seq<seq<T>>
    ghost var consumed: seq<T>

    ghost predicate Valid()
      reads this
    {
      && Concat(emitted) + batch == consumed
      && |batch| < Width(batchSize)
      && forall i :: 0 <= i < |emitted| ==> |emitted[i]| == Width(batchSize)
    }

    constructor(batchSize: int)
      ensures Valid()
      ensures this.batchSize == batchSize
      ensures batch == [] && emitted == [] && consumed == []
    {
      this.batchSize := batchSize;
      batch := [];
      emitted := [];
      consumed := [];
    }

    /** `transform(record)`: buffer the record and hand over a full batch. */
    method Transform(record: T)
      requires Valid()
      modifies this
      ensures Valid()
      ensures consumed == old(consumed) + [record]
      ensures |old(batch)| + 1 == Width(batchSize) ==>
        emitted == old(emitted) + [old(batch) + [record]] && batch == []
      ensures |old(batch)| + 1 < Width(batchSize) ==>
        emitted == old(emitted) && batch == old(batch) + [record]
    {
      consumed := consumed + [record];
      batch := batch + [record];
      if |batch| >= batchSize {
        emitted := emitted + [batch];
        batch := [];
      }
    }

    /** `flush()`: hand over what is left, if anything. */
    method Flush()
      requires Valid()
      modifies this
      ensures Concat(emitted) == consumed
      ensures emitted == old(emitted) + (if old(batch) == [] then [] else [old(batch)])
      ensures batch == old(batch) && consumed == old(consumed)
    {
      if |batch| > 0 {
        emitted := emitted + [batch];
      }
    }
  }

  /** `readBatched(filePath, batchSize, onBatch)` over the records the CSV
      parser yields: the batches handed to `onBatch`, in order. */
  method ReadBatched<T>(records: seq<T>, batchSize: int) returns (batches: seq<seq<T>>)
    ensures Concat(batches) == records
    ensures forall i :: 0 <= i < |batches| ==> batches[i] != []
    ensures forall i :: 0 <= i < |batches| - 1 ==> |batches[i]| == Width(batchSize)
    ensures batches != [] ==> |batches[|batches| - 1]| <= Width(batchSize)
    ensures |batches| == (|records| + Width(batchSize) - 1) / Width(batchSize)
  {
    var b := new Batcher<T>(batchSize);
    for i := 0 to |records|
      invariant b.Valid() && b.batchSize == batchSize
      invariant b.consumed == records[..i]
      invariant |b.emitted| * Width(batchSize) + |b.batch| == i
    {
      b.Transform(records[i]);
    }
    assert records[..|records|] == records;
    ghost var full := b.emitted;
    ghost var rest := b.batch;
    b.Flush();
    batches := b.emitted;
    CountBatches(|full|, |rest|, Width(batchSize));
  }

  lemma CountBatches(full: nat, rest: nat, w: nat)
    requires rest < w
    ensures (full * w + rest + w - 1) / w == full + (if rest == 0 then 0 else 1)
  {
    if rest == 0 {
      DivUnique(full * w + rest + w - 1, w, full, w - 1);
    } else {
      assert full * w + rest + w - 1 == (full + 1) * w + (rest - 1);
      DivUnique(full * w + rest + w - 1, w, full + 1, rest - 1);
    }
  }

  lemma DivUnique(n: int, w: int, q: int, r: int)
    requires w > 0 && 0 <= r < w && n == q * w + r
    ensures n / w == q
  {
    var d := n / w - q;
    assert d * w == r - n % w by {
      assert n == (n / w) * w + n % w;
      assert (n / w) * w == (q + d) * w == q * w + d * w;
    }
  }

  // ---------------------------------------------------------------
  // FileParser.read / readStream
  // ---------------------------------------------------------------

  datatype Format = Csv | Xml | Json

  /** `filePath.split(".").pop()?.toLowerCase()`: `split` never yields an
      empty list, so there is always a segment. */
  function Extension(path: string): (ext: string)
    ensures '.' !in ext
  {
    var parts := Split(path, '.');
    SplitNoSeparator(path, '.');
    var last := parts[|parts| - 1];
    assert forall i :: 0 <= i < |Lower(last)| ==> Lower(last)[i] != '.';
    Lower(last)
  }

  /** The extension is the text after the last dot, lower-cased. */
  lemma ExtensionAfterDot(stem: string, ext: string)
    requires '.' !in ext
    ensures Extension(stem + "." + ext) == Lower(ext)
  {
    SplitLast(stem, ext, '.');
  }

  /** A name without a dot is its own extension. */
  lemma ExtensionWithoutDot(path: string)
    requires '.' !in path
    ensures Extension(path) == Lower(path)
  {
    SplitWithout(path, '.');
  }

  /** `FileParser.read`: the parser for csv, xml or json files. */
  function ReadFormat(path: string): (r: Result<Format>)
    ensures r.Ok? <==> Extension(path) in {"csv", "xml", "json"}
    ensures r.Err? ==> r.msg == "Unsupported file format: " + Extension(path)
  {
    var ext := Extension(path);
    if ext == "csv" then Ok(Csv)
    else if ext == "xml" then Ok(Xml)
    else if ext == "json" then Ok(Json)
    else Err("Unsupported file format: " + ext)
  }

  /** `FileParser.readStream`: streaming exists for csv and json only. */
  function StreamFormat(path: string): (r: Result<Format>)
    ensures r.Ok? <==> Extension(path) in {"csv", "json"}
    ensures r.Err? ==> r.msg == "Streaming not supported for format: " + Extension(path)
  {
    var ext := Extension(path);
    if ext == "csv" then Ok(Csv)
    else if ext == "json" then Ok(Json)
    else Err("Streaming not supported for format: " + ext)
  }

  /** Whatever can be streamed can be read, with the same parser. */
  lemma StreamableIsReadable(path: string)
    requires StreamFormat(path).Ok?
    ensures ReadFormat(path) == StreamFormat(path)
    ensures StreamFormat(path) != Ok(Xml)
  {
  }
}
