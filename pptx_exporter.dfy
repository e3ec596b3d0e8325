/** `PptxExporter.exportToPptx`: a deck with a title slide, a slide of
    metric tiles and, when there are samples, a table slide. The deck
    object is a class whose slides the exporter appends; positions and
    sizes are in hundredths of an inch. */
module PptxExporter {
  import opened Wrappers
  import opened Js
  import opened BundleTypes

  datatype ExportOptions = ExportOptions(
    title: Option<string>,
    author: Option<string>,
    subject: Option<string>,
    company: Option<string>)

  datatype Cell = Cell(text: string, isHeader: bool)

  datatype Item =
    | Text(text: string, x: int, y: int, w: Option<int>, h: Option<int>,
           fontSize: int, bold: bool, color: string, align: Option<string>)
    | Rect(x: int, y: int, w: Option<int>, h: Option<int>, fill: string, line: string, lineWidth: int)
    | Table(rows: seq<seq<Cell>>, x: int, y: int, w: Option<int>, h: Option<int>, fontSize: int)

  datatype Slide = Slide(background: Option<string>, items: seq<Item>)

  /** The `pptxgenjs` presentation being built. */
  class Deck {
    var author: string
    var company: string
    var subject: string
    var title: string
    var slides: seq<Slide>

    constructor()
      ensures slides == [] && author == "" && company == "" && subject == "" && title == ""
    {
      author, company, subject, title := "", "", "", "";
      slides := [];
    }

    /** The presentation properties `author`, `company`, `subject`, `title`. */
    method SetProperties(author: string, company: string, subject: string, title: string)
      modifies this
      ensures this.author == author && this.company == company
      ensures this.subject == subject && this.title == title
      ensures slides == old(slides)
    {
      this.author, this.company, this.subject, this.title := author, company, subject, title;
    }

    /** `pptx.addSlide()`, with the slide's content. */
    method AddSlide(s: Slide)
      modifies this
      ensures slides == old(slides) + [s]
      ensures author == old(author) && company == old(company)
      ensures subject == old(subject) && title == old(title)
    {
      slides := slides + [s];
    }
  }

  /** `s || fallback` for an optional string. */
  function OrText(s: Option<string>, fallback: string): (r: string)
    ensures s.Some? && s.value != "" ==> r == s.value
    ensures s.None? || s.value == "" ==> r == fallback
  {
    if s.Some? && s.value != "" then s.value else fallback
  }

  /** `options.title || data.datasetName` */
  function DeckTitle(o: ExportOptions, data: Bundle): string {
    OrText(o.title, data.datasetName)
  }

  const Blue := "3b82f6"
  const White := "FFFFFF"

  /** Slide 1: the title and the generation date (the date as the locale
      formats `metadata.ingestedAt`). */
  function TitleSlide(title: string, generatedDate: string): Slide {
    Slide(Some(Blue), [
      Text(title, 50, 200, Some(900), Some(100), 44, true, White, Some("center")),
      Text("Generated: " + generatedDate, 50, 350, Some(900), Some(50), 18, false, White, Some("center"))])
  }

  function Heading(text: string): Item {
    Text(text, 50, 50, None, None, 32, true, Blue, None)
  }

  // ---------------------------------------------------------------
  // Metric tiles
  // ---------------------------------------------------------------

  /** The top-left corner of tile `i`: three tiles to a row. */
  function TileX(i: nat): int { 50 + 300 * (i % 3) }
  function TileY(i: nat): int { 150 + 150 * (i / 3) }

  /** `key.replace(/_/g, " ").toUpperCase()` */
  function TileLabel(key: string): (t: string)
    ensures |t| == |key|
  {
    Upper(ReplaceChar(key, '_', ' '))
  }

  /** A label keeps every character of the key except that underscores
      become spaces and lower-case letters become capitals. */
  lemma TileLabelShape(key: string)
    ensures forall i :: 0 <= i < |key| ==>
      TileLabel(key)[i] == (if key[i] == '_' then ' ' else UpperChar(key[i]))
    ensures forall i :: 0 <= i < |key| ==> TileLabel(key)[i] != '_' && !('a' <= TileLabel(key)[i] <= 'z')
  {
  }

  /** The box, the value and the label of tile `i`. */
  function TileItems(i: nat, stat: Prop): seq<Item> {
    var x, y := TileX(i), TileY(i);
    [Rect(x, y, Some(280), Some(120), "f0f9ff", Blue, 2),
     Text(ToStr(stat.val), x, y + 20, Some(280), Some(50), 28, true, Blue, Some("center")),
     Text(TileLabel(stat.key), x, y + 70, Some(280), Some(40), 12, false, "666666", Some("center"))]
  }

  /** The items of the first `n` tiles. */
  function Tiles(entries: seq<Prop>, n: nat): seq<Item>
    requires n <= |entries|
  {
    if n == 0 then [] else Tiles(entries, n - 1) + TileItems(n - 1, entries[n - 1])
  }

  /** `Object.entries(data.stats).slice(0, 6)` */
  function TileEntries(stats: seq<Prop>): (entries: seq<Prop>)
    ensures |entries| == if |stats| < 6 then |stats| else 6
    ensures entries == stats[..|entries|]
  {
    Slice(stats, Some(0), Some(6))
  }

  function MetricsSlide(stats: seq<Prop>): Slide {
    var entries := TileEntries(stats);
    Slide(None, [Heading("Key Metrics")] + Tiles(entries, |entries|))
  }

  /** Tile `k` occupies items 3k .. 3k+2: its box, value and label. */
  lemma {:induction false} TilesAt(entries: seq<Prop>, n: nat, k: nat)
    requires k < n <= |entries|
    ensures |Tiles(entries, n)| == 3 * n
    ensures Tiles(entries, n)[3 * k..3 * k + 3] == TileItems(k, entries[k])
  {
    TilesLength(entries, n - 1);
    if k < n - 1 {
      TilesAt(entries, n - 1, k);
      assert Tiles(entries, n)[3 * k..3 * k + 3] == Tiles(entries, n - 1)[3 * k..3 * k + 3];
    }
  }

  lemma {:induction false} TilesLength(entries: seq<Prop>, n: nat)
    requires n <= |entries|
    ensures |Tiles(entries, n)| == 3 * n
  {
    if n > 0 {
      TilesLength(entries, n - 1);
    }
  }

  /** The metrics slide has one tile per stats entry, at most six, in
      entry order, each showing `String(value)` and the entry's label. */
  lemma MetricsTiles(stats: seq<Prop>, k: nat)
    requires k < |stats| && k < 6
    ensures var items := MetricsSlide(stats).items;
      |items| == 1 + 3 * |TileEntries(stats)|
      && items[1 + 3 * k..4 + 3 * k] == TileItems(k, stats[k])
  {
    var entries := TileEntries(stats);
    TilesAt(entries, |entries|, k);
  }

  /** No two tiles share a position. */
  lemma TilePositionsDistinct(i: nat, j: nat)
    requires i != j
    ensures TileX(i) != TileX(j) || TileY(i) != TileY(j)
  {
  }

  // ---------------------------------------------------------------
  // Data table
  // ---------------------------------------------------------------

  /** `Object.keys(sampleData[0] || {})` for an object sample; other samples
      give no columns. */
  function Headers(first: Value): seq<string> {
    match first
    case Obj(props) => Keys(props)
    case _ => []
  }

  /** `headers.map((h) => String(row[h] || ""))`; reading a field of null or
      undefined throws. */
  function DataRow(row: Value, headers: seq<string>): (r: Result<seq<Cell>>)
    ensures r.Ok? <==> headers == [] || Get(row, headers[0]).Some?
    ensures r.Ok? ==> (
      && |r.value| == |headers|
      && forall i :: 0 <= i < |headers| ==>
           r.value[i] == Cell(ToStr(Or(Get(row, headers[i]).value, Str(""))), false))
  {
    if headers == [] then Ok([])
    else if Get(row, headers[0]).None? then Err(ReadError(row, headers[0]))
    else
      var rest := DataRow(row, headers[1..]);
      assert rest.Ok?;
      Ok([Cell(ToStr(Or(Get(row, headers[0]).value, Str(""))), false)] + rest.value)
  }

  function DataRows(rows: seq<Value>, headers: seq<string>): (r: Result<seq<seq<Cell>>>)
    ensures r.Ok? <==> forall i :: 0 <= i < |rows| ==> DataRow(rows[i], headers).Ok?
    ensures r.Ok? ==> (
      && |r.value| == |rows|
      && forall i :: 0 <= i < |rows| ==> r.value[i] == DataRow(rows[i], headers).value)
  {
    if rows == [] then Ok([])
    else
      var first :- DataRow(rows[0], headers);
      var rest :- DataRows(rows[1..], headers);
      Ok([first] + rest)
  }

  function HeaderRow(headers: seq<string>): (cells: seq<Cell>)
    ensures |cells| == |headers|
    ensures forall i :: 0 <= i < |headers| ==> cells[i] == Cell(headers[i], true)
  {
    seq(|headers|, i requires 0 <= i < |headers| => Cell(headers[i], true))
  }

  /** `tableData`: the header row, then one row per sample among the first ten. */
  function TableData(samples: seq<Value>): Result<seq<seq<Cell>>>
    requires samples != []
  {
    var sampleData := Slice(samples, Some(0), Some(10));
    var headers := Headers(Or(sampleData[0], Obj([])));
    var rows :- DataRows(sampleData, headers);
    Ok([HeaderRow(headers)] + rows)
  }

  /** A table has a header row of the first sample's keys and one row of
      `min(10, n)` per sample, each as wide as the header. */
  lemma TableShape(samples: seq<Value>)
    requires samples != [] && TableData(samples).Ok?
    ensures var t := TableData(samples).value;
      var headers := Headers(samples[0]);
      |t| == 1 + (if |samples| < 10 then |samples| else 10)
      && t[0] == HeaderRow(headers)
      && forall i :: 1 <= i < |t| ==> DataRow(samples[i - 1], headers) == Ok(t[i]) && |t[i]| == |headers|
  {
    var n := if |samples| < 10 then |samples| else 10;
    var sampleData := Slice(samples, Some(0), Some(10));
    FirstTen(samples);
    HeadersOfFirst(sampleData[0]);
    var headers := Headers(samples[0]);
    var rows := DataRows(sampleData, headers);
    var t := TableData(samples).value;
    assert t == [HeaderRow(headers)] + rows.value;
    forall i | 1 <= i < |t| ensures DataRow(samples[i - 1], headers) == Ok(t[i]) && |t[i]| == |headers| {
      assert sampleData[i - 1] == samples[i - 1];
      assert t[i] == rows.value[i - 1];
    }
  }

  /** `slice(0, 10)`: the first ten samples, or all of them. */
  lemma FirstTen(samples: seq<Value>)
    ensures Slice(samples, Some(0), Some(10)) == samples[..if |samples| < 10 then |samples| else 10]
  {
    SliceFromStart(samples, 10);
  }

  /** `sampleData[0] || {}` has the same keys as the first sample. */
  lemma HeadersOfFirst(first: Value)
    ensures Headers(Or(first, Obj([]))) == Headers(first)
  {
  }

  function TableSlide(rows: seq<seq<Cell>>): Slide {
    Slide(None, [Heading("Data Overview"), Table(rows, 50, 150, Some(900), Some(400), 10)])
  }

  /** The heading and the metric tiles, added one entry at a time. */
  method MetricItems(stats: seq<Prop>) returns (items: seq<Item>)
    ensures Slide(None, items) == MetricsSlide(stats)
  {
    var entries := TileEntries(stats);
    items := [Heading("Key Metrics")];
    for i := 0 to |entries|
      invariant items == [Heading("Key Metrics")] + Tiles(entries, i)
    {
      items := items + TileItems(i, entries[i]);
    }
  }

  /** `exportToPptx(data, outputPath, options)`: builds the deck and returns
      the path it is written to, or the error raised while building the
      table. `generatedDate` is the locale date of `metadata.ingestedAt`. */
  method ExportToPptx(data: Bundle, outputPath: string, o: ExportOptions, generatedDate: string)
    returns (deck: Deck, r: Result<string>)
    ensures fresh(deck)
    ensures deck.author == OrText(o.author, "Report Framework")
    ensures deck.company == OrText(o.company, "")
    ensures deck.subject == OrText(o.subject, "Data Report")
    ensures deck.title == DeckTitle(o, data)
    ensures r.Err? <==> data.samples != [] && TableData(data.samples).Err?
    ensures r.Ok? ==> r.value == outputPath
    ensures r.Ok? ==> (deck.slides ==
      [TitleSlide(DeckTitle(o, data), generatedDate), MetricsSlide(data.stats)]
      + (if data.samples == [] then [] else [TableSlide(TableData(data.samples).value)]))
  {
    deck := new Deck();
    deck.SetProperties(OrText(o.author, "Report Framework"), OrText(o.company, ""),
      OrText(o.subject, "Data Report"), DeckTitle(o, data));

    deck.AddSlide(TitleSlide(DeckTitle(o, data), generatedDate));

    var items := MetricItems(data.stats);
    deck.AddSlide(Slide(None, items));

    if |data.samples| > 0 {
      var table := TableData(data.samples);
      if table.Err? {
        return deck, Err(table.msg);
      }
      deck.AddSlide(TableSlide(table.value));
    }
    r := Ok(outputPath);
  }
}
