/** The report engine: given a plugin, its inputs, a report type and an
    output format, it runs the plugin's processing, asks the language model
    for each declared prompt, merges everything into one template context,
    renders the template, converts it to the output format and writes the
    result under an output directory.

    Every external effect is a parameter: the file system, the template
    renderer, the language model, the converters and the clock are fields of
    `Env`, and the arrival of a shutdown signal is the set of checkpoints
    before which the signal handler has run. */
module ReportEngine {
  import opened Wrappers
  import opened Js
  import opened BundleTypes
  import opened PluginBase
  import opened ShutdownManager

  // ---------------------------------------------------------------
  // Effects and checkpoints
  // ---------------------------------------------------------------

  /** How a converter turns the rendered template into the output. */
  datatype Conversion =
    | MdxToHtml(withSubtitle: bool)   // MDX compiled to a React tree, rendered to HTML
    | MarkdownToHtml                  // Markdown rendered to HTML
    | MdxToPdf
    | MarkdownToPdf
    | Verbatim                        // the rendered text itself

  /** What the slide exporter is asked to put on the title slide. */
  datatype DeckRequest = DeckRequest(title: Value, author: Value, subject: string)

  datatype Env = Env(
    readFile: string -> Option<string>,                 // `fs.readFile`; None when it throws
    renderString: (string, seq<Prop>) -> Result<string>, // the template engine's `renderString`
    mdxToHtml: (string, seq<Prop>) -> Result<string>,    // MDX prompt: compile and render without styles
    complete: string -> Result<string>,                 // the language model
    convert: (Conversion, string, seq<Prop>) -> Result<string>,
    writeFile: (string, string) -> Outcome,             // `mkdir -p` of the directory and the write
    exportPptx: (Bundle, string, DeckRequest) -> Outcome,
    nowMs: int,                                         // the clock while the plugin processes
    nowIso: string,
    generatedIso: string,                               // `metadata.generatedAt`
    fileMs: int,                                        // the clock in the file name
    fileIso: string,
    cwd: string)                                        // `process.cwd()`

  /** The points at which the engine polls the shutdown flag. */
  datatype Checkpoint = AtStart | AfterProcessing | BeforePrompt(index: nat) | BeforeRendering

  /** `ShutdownManager.checkShutdown()` at checkpoint `cp`. The signal
      handler may have run since the previous checkpoint; it has exactly
      when `cp` is in `signals`. */
  method Poll(sm: Manager, cp: Checkpoint, signals: set<Checkpoint>) returns (r: Outcome)
    modifies sm
    ensures sm.shutting == (old(sm.shutting) || cp in signals)
    ensures r.Pass? <==> !sm.shutting
    ensures r.Fail? ==> r.msg == CancelledMessage
  {
    if cp in signals {
      sm.SetShutdown(true);
    }
    r := sm.CheckShutdown();
  }

  // ---------------------------------------------------------------
  // One prompt
  // ---------------------------------------------------------------

  /** The context a prompt is rendered with: only the prompt's declared
      inputs, each taken from the plugin's output or `[]` when it is null or
      undefined there. */
  function PromptContext(inputs: seq<string>, context: seq<Prop>): seq<Prop>
    decreases |inputs|
  {
    if inputs == [] then []
    else
      var k := inputs[|inputs| - 1];
      Assign(PromptContext(inputs[..|inputs| - 1], context), k, Coalesce(Lookup(context, k), Arr([])))
  }

  lemma PromptContextShape(inputs: seq<string>, context: seq<Prop>)
    ensures var pc := PromptContext(inputs, context);
      DistinctKeys(pc)
      && (forall k :: k in Keys(pc) <==> k in inputs)
      && (forall k :: Lookup(pc, k) == if k in inputs then Coalesce(Lookup(context, k), Arr([])) else Undefined)
  {
    PromptContextKeys(inputs, context);
    PromptContextLookup(inputs, context);
  }

  /** The keys of the prompt context are the input names, each once. */
  lemma {:induction false} PromptContextKeys(inputs: seq<string>, context: seq<Prop>)
    ensures var pc := PromptContext(inputs, context);
      DistinctKeys(pc) && (forall k :: k in Keys(pc) <==> k in inputs)
    decreases |inputs|
  {
    if inputs != [] {
      var init := inputs[..|inputs| - 1];
      var k := inputs[|inputs| - 1];
      var v := Coalesce(Lookup(context, k), Arr([]));
      var prev := PromptContext(init, context);
      PromptContextKeys(init, context);
      DistinctAssign(prev, k, v);
      KeysAssign(prev, k, v);
      assert inputs == init + [k];
    }
  }

  /** Each input name reads the context's value, or `[]` when that is null
      or undefined; every other key reads undefined. */
  lemma {:induction false} PromptContextLookup(inputs: seq<string>, context: seq<Prop>)
    ensures var pc := PromptContext(inputs, context);
      forall k :: Lookup(pc, k) == if k in inputs then Coalesce(Lookup(context, k), Arr([])) else Undefined
    decreases |inputs|
  {
    if inputs != [] {
      var init := inputs[..|inputs| - 1];
      var k := inputs[|inputs| - 1];
      var v := Coalesce(Lookup(context, k), Arr([]));
      var prev := PromptContext(init, context);
      PromptContextLookup(init, context);
      assert inputs == init + [k];
      forall j ensures Lookup(Assign(prev, k, v), j)
                    == if j in inputs then Coalesce(Lookup(context, j), Arr([])) else Undefined {
        LookupAssign(prev, k, v, j);
      }
    }
  }

  /** The loop filling the prompt context. */
  method BuildPromptContext(inputs: seq<string>, context: seq<Prop>) returns (pc: seq<Prop>)
    ensures pc == PromptContext(inputs, context)
  {
    pc := [];
    var i := 0;
    while i < |inputs|
      invariant 0 <= i <= |inputs|
      invariant pc == PromptContext(inputs[..i], context)
    {
      var key := inputs[i];
      assert inputs[..i + 1][..i] == inputs[..i];
      pc := Assign(pc, key, Coalesce(Lookup(context, key), Arr([])));
      i := i + 1;
    }
    assert inputs[..i] == inputs;
  }

  /** The line of the safety preamble that gives `k` a default. */
  function SetLine(k: string): string {
    "{% set " + k + " = " + k + " | default([]) %}"
  }

  function SetLines(inputs: seq<string>): (lines: seq<string>)
    ensures |lines| == |inputs|
    ensures forall i :: 0 <= i < |inputs| ==> lines[i] == SetLine(inputs[i])
  {
    if inputs == [] then [] else [SetLine(inputs[0])] + SetLines(inputs[1..])
  }

  /** The safety preamble put in front of a non-MDX prompt template. */
  function Preamble(inputs: seq<string>): string {
    Join(SetLines(inputs), "\n")
  }

  /** The preamble has exactly one line per declared input, in order, each
      defaulting that input to `[]`. */
  lemma PreambleLines(inputs: seq<string>)
    requires |inputs| >= 1
    requires forall i :: 0 <= i < |inputs| ==> '\n' !in inputs[i]
    ensures Split(Preamble(inputs), '\n') == SetLines(inputs)
    ensures |Split(Preamble(inputs), '\n')| == |inputs|
  {
    var lines := SetLines(inputs);
    forall i | 0 <= i < |lines| ensures '\n' !in lines[i] {
      assert lines[i] == "{% set " + inputs[i] + " = " + inputs[i] + " | default([]) %}";
    }
    SplitJoin(lines, '\n');
  }

  /** What happened to one prompt. */
  datatype PromptEffect =
    | FileMissing
    | RenderFail(error: string)
    | LlmOk(content: string)
    | LlmFail(error: string)

  /** The prompt's template as it goes to the renderer: an MDX prompt as
      read, any other with the safety preamble in front. */
  function PromptTemplate(p: PromptSpec, content: string): string {
    if EndsWith(p.file, ".mdx") then content else Preamble(p.inputs) + "\n" + content
  }

  /** Reads, renders and sends one prompt. */
  function Effect(env: Env, promptsDir: string, p: PromptSpec, context: seq<Prop>): (e: PromptEffect)
    ensures e.FileMissing? <==> env.readFile(PathJoin(promptsDir, p.file)).None?
  {
    match env.readFile(PathJoin(promptsDir, p.file))
    case None => FileMissing
    case Some(content) =>
      var pc := PromptContext(p.inputs, context);
      var rendered :=
        if EndsWith(p.file, ".mdx") then
          (match env.renderString(content, pc)
           case Err(m) => Err(m)
           case Ok(mdx) => env.mdxToHtml(mdx, pc))
        else env.renderString(PromptTemplate(p, content), pc);
      if rendered.Err? then RenderFail(rendered.msg)
      else
        match env.complete(rendered.value)
        case Ok(c) => LlmOk(c)
        case Err(m) => LlmFail(m)
  }

  /** One iteration of the prompt loop, step by step. */
  method RunPrompt(env: Env, promptsDir: string, p: PromptSpec, context: seq<Prop>) returns (e: PromptEffect)
    ensures e == Effect(env, promptsDir, p, context)
  {
    var promptPath := PathJoin(promptsDir, p.file);
    var file := env.readFile(promptPath);
    if file.None? {
      return FileMissing;
    }
    var promptContext := BuildPromptContext(p.inputs, context);
    var rendered: Result<string>;
    if EndsWith(p.file, ".mdx") {
      var processed := env.renderString(file.value, promptContext);
      if processed.Err? {
        return RenderFail(processed.msg);
      }
      rendered := env.mdxToHtml(processed.value, promptContext);
    } else {
      var template := Preamble(p.inputs) + "\n" + file.value;
      rendered := env.renderString(template, promptContext);
    }
    if rendered.Err? {
      return RenderFail(rendered.msg);
    }
    var response := env.complete(rendered.value);
    if response.Ok? {
      e := LlmOk(response.value);
    } else {
      e := LlmFail(response.msg);
    }
  }

  // ---------------------------------------------------------------
  // The prompt loop
  // ---------------------------------------------------------------

  /** The result text a prompt leaves: the model's answer, or "" for a
      missing file, a failed render or a failed call. */
  function Answer(e: PromptEffect): string {
    if e.LlmOk? then e.content else ""
  }

  /** A model failure that reports a shutdown ends the loop. */
  predicate Stops(e: PromptEffect) {
    e.LlmFail? && Contains(e.error, Marker)
  }

  function Effects(env: Env, promptsDir: string, ps: seq<PromptSpec>, context: seq<Prop>): (es: seq<PromptEffect>)
    ensures |es| == |ps|
    ensures forall i :: 0 <= i < |ps| ==> es[i] == Effect(env, promptsDir, ps[i], context)
  {
    seq(|ps|, i requires 0 <= i < |ps| => Effect(env, promptsDir, ps[i], context))
  }

  /** The index at which the loop, started at `i`, leaves: the first prompt
      whose checkpoint finds the flag set or whose model call reports a
      shutdown, or the end. */
  function StopIndex(effects: seq<PromptEffect>, shutting: bool, signals: set<Checkpoint>, i: nat): (k: nat)
    requires i <= |effects|
    ensures i <= k <= |effects|
    ensures forall j :: i <= j < k ==> !shutting && BeforePrompt(j) !in signals && !Stops(effects[j])
    ensures k < |effects| ==> shutting || BeforePrompt(k) in signals || Stops(effects[k])
    decreases |effects| - i
  {
    if i == |effects| || shutting || BeforePrompt(i) in signals || Stops(effects[i]) then i
    else StopIndex(effects, shutting, signals, i + 1)
  }

  /** The results object after the first `k` prompts have been handled. */
  function Written(ps: seq<PromptSpec>, effects: seq<PromptEffect>, k: nat): seq<Prop>
    requires k <= |ps| && |effects| == |ps|
  {
    if k == 0 then []
    else Assign(Written(ps, effects, k - 1), ps[k - 1].name, Str(Answer(effects[k - 1])))
  }

  /** The results of the loop and whether a checkpoint threw. */
  datatype PromptRun = PromptRun(results: seq<Prop>, outcome: Outcome)

  function Prompts(ps: seq<PromptSpec>, effects: seq<PromptEffect>, shutting: bool,
                   signals: set<Checkpoint>): PromptRun
    requires |effects| == |ps|
  {
    var k := StopIndex(effects, shutting, signals, 0);
    PromptRun(Written(ps, effects, k),
              if k < |ps| && (shutting || BeforePrompt(k) in signals) then Fail(CancelledMessage) else Pass)
  }

  /** `processPrompts`: prompts run strictly in declared order; each polls
      the shutdown flag first; a failure of one prompt leaves "" for it and
      goes on, except a model error reporting a shutdown, which ends the loop. */
  method ProcessPrompts(sm: Manager, env: Env, promptsDir: string, ps: seq<PromptSpec>,
                        context: seq<Prop>, signals: set<Checkpoint>)
    returns (results: seq<Prop>, r: Outcome)
    modifies sm
    ensures PromptRun(results, r)
         == Prompts(ps, Effects(env, promptsDir, ps, context), old(sm.shutting), signals)
    ensures sm.shutting == (old(sm.shutting) || r.Fail?)
    ensures r.Fail? ==> r.msg == CancelledMessage
  {
    ghost var effects := Effects(env, promptsDir, ps, context);
    ghost var k := StopIndex(effects, sm.shutting, signals, 0);
    results := [];
    var i := 0;
    while i < |ps|
      invariant 0 <= i <= k
      invariant results == Written(ps, effects, i)
      invariant sm.shutting == old(sm.shutting)
    {
      var c := Poll(sm, BeforePrompt(i), signals);
      if c.Fail? {
        assert i == k;
        return results, c;
      }
      var e := RunPrompt(env, promptsDir, ps[i], context);
      assert e == effects[i];
      if e.LlmFail? && Contains(e.error, Marker) {
        assert i == k;
        break;
      }
      assert i < k;
      results := Assign(results, ps[i].name, Str(Answer(e)));
      i := i + 1;
    }
    assert i == k;
    r := Pass;
  }

  /** After `k` prompts, a prompt whose name no later one of them reuses has
      its answer in the results. */
  lemma {:induction false} WrittenAnswer(ps: seq<PromptSpec>, effects: seq<PromptEffect>, k: nat, j: nat)
    requires j < k <= |ps| && |effects| == |ps|
    requires forall l :: j < l < k ==> ps[l].name != ps[j].name
    ensures Lookup(Written(ps, effects, k), ps[j].name) == Str(Answer(effects[j]))
  {
    LookupAssign(Written(ps, effects, k - 1), ps[k - 1].name, Str(Answer(effects[k - 1])), ps[j].name);
    if j < k - 1 {
      WrittenAnswer(ps, effects, k - 1, j);
    }
  }

  /** A name none of the first `k` prompts carries has no entry. */
  lemma {:induction false} WrittenAbsent(ps: seq<PromptSpec>, effects: seq<PromptEffect>, k: nat, name: string)
    requires k <= |ps| && |effects| == |ps|
    requires forall l :: 0 <= l < k ==> ps[l].name != name
    ensures Lookup(Written(ps, effects, k), name) == Undefined
  {
    if k > 0 {
      LookupAssign(Written(ps, effects, k - 1), ps[k - 1].name, Str(Answer(effects[k - 1])), name);
      WrittenAbsent(ps, effects, k - 1, name);
    }
  }

  /** With no shutdown at all, every prompt leaves an entry: its answer, or
      "" when it failed (for a name used twice, the later prompt's). */
  lemma EveryPromptAnswered(ps: seq<PromptSpec>, effects: seq<PromptEffect>, signals: set<Checkpoint>, j: nat)
    requires |effects| == |ps| && j < |ps|
    requires forall i :: 0 <= i < |ps| ==> BeforePrompt(i) !in signals && !Stops(effects[i])
    requires forall l :: j < l < |ps| ==> ps[l].name != ps[j].name
    ensures var run := Prompts(ps, effects, false, signals);
      run.outcome.Pass? && Lookup(run.results, ps[j].name) == Str(Answer(effects[j]))
  {
    var k := StopIndex(effects, false, signals, 0);
    assert k == |ps|;
    WrittenAnswer(ps, effects, k, j);
  }

  /** A model error reporting a shutdown ends the loop without an error:
      earlier prompts keep their entries and later ones get none. */
  lemma ShutdownAnswerBreaks(ps: seq<PromptSpec>, effects: seq<PromptEffect>, signals: set<Checkpoint>,
                             i: nat, name: string)
    requires |effects| == |ps| && i < |ps|
    requires Stops(effects[i])
    requires forall j :: 0 <= j <= i ==> BeforePrompt(j) !in signals
    requires forall j :: 0 <= j < i ==> !Stops(effects[j])
    requires forall j :: 0 <= j < i ==> ps[j].name != name
    ensures var run := Prompts(ps, effects, false, signals);
      run.outcome.Pass? && Lookup(run.results, name) == Undefined
  {
    var k := StopIndex(effects, false, signals, 0);
    assert k == i;
    WrittenAbsent(ps, effects, k, name);
  }

  /** A flag set before the first prompt aborts the loop before any prompt runs. */
  lemma ShuttingDownRunsNoPrompt(ps: seq<PromptSpec>, effects: seq<PromptEffect>, signals: set<Checkpoint>)
    requires |effects| == |ps| && ps != []
    ensures Prompts(ps, effects, true, signals) == PromptRun([], Fail(CancelledMessage))
  {
  }

  // ---------------------------------------------------------------
  // The render context
  // ---------------------------------------------------------------

  /** The engine's own metadata fields, before the bundle's are spread over them. */
  function MetaDefaults(pluginId: string, pluginName: string, reportType: string,
                        bundleMeta: seq<Prop>, nowIso: string): seq<Prop> {
    [Prop("pluginId", Str(pluginId)),
     Prop("pluginName", Str(pluginName)),
     Prop("reportType", Str(reportType)),
     Prop("reportTitle", Or(Lookup(bundleMeta, "reportTitle"), Str(pluginName + " Report"))),
     Prop("generatedAt", Str(nowIso)),
     Prop("author", Or(Lookup(bundleMeta, "author"), Str("Report Framework")))]
  }

  /** The `metadata` object of the render context: engine defaults first,
      the bundle's own metadata spread over them. */
  function RenderMetadata(pluginId: string, pluginName: string, reportType: string,
                          bundleMeta: seq<Prop>, nowIso: string): seq<Prop> {
    Spread(MetaDefaults(pluginId, pluginName, reportType, bundleMeta, nowIso), bundleMeta)
  }

  /** `{ ...attributes, ...llmResults, metadata: { ... } }` */
  function RenderContext(b: Bundle, llm: seq<Prop>, pluginId: string, pluginName: string,
                         reportType: string, nowIso: string): seq<Prop> {
    Assign(Spread(b.ToValue().props, llm), "metadata",
           Obj(RenderMetadata(pluginId, pluginName, reportType, b.metadata, nowIso)))
  }

  /** Prompt results override bundle fields of the same name; the
      `metadata` key is always the merged metadata. */
  lemma RenderContextLookup(b: Bundle, llm: seq<Prop>, pluginId: string, pluginName: string,
                            reportType: string, nowIso: string, k: string)
    requires DistinctKeys(llm)
    ensures var ctx := RenderContext(b, llm, pluginId, pluginName, reportType, nowIso);
      Lookup(ctx, k)
      == if k == "metadata" then Obj(RenderMetadata(pluginId, pluginName, reportType, b.metadata, nowIso))
         else if k in Keys(llm) then Lookup(llm, k)
         else Lookup(b.ToValue().props, k)
  {
    var merged := Spread(b.ToValue().props, llm);
    LookupAssign(merged, "metadata", Obj(RenderMetadata(pluginId, pluginName, reportType, b.metadata, nowIso)), k);
    LookupSpread(b.ToValue().props, llm, k);
  }

  /** The bundle's metadata wins over every engine default; the title and
      author defaults apply only to keys the bundle leaves out. */
  lemma RenderMetadataLookup(pluginId: string, pluginName: string, reportType: string,
                             bundleMeta: seq<Prop>, nowIso: string)
    requires DistinctKeys(bundleMeta)
    ensures var m := RenderMetadata(pluginId, pluginName, reportType, bundleMeta, nowIso);
      (forall k :: k in Keys(bundleMeta) ==> Lookup(m, k) == Lookup(bundleMeta, k))
      && ("reportTitle" !in Keys(bundleMeta) ==> Lookup(m, "reportTitle") == Str(pluginName + " Report"))
      && ("author" !in Keys(bundleMeta) ==> Lookup(m, "author") == Str("Report Framework"))
      && ("pluginId" !in Keys(bundleMeta) ==> Lookup(m, "pluginId") == Str(pluginId))
      && ("generatedAt" !in Keys(bundleMeta) ==> Lookup(m, "generatedAt") == Str(nowIso))
  {
    var base := MetaDefaults(pluginId, pluginName, reportType, bundleMeta, nowIso);
    forall k | k in Keys(bundleMeta) ensures Lookup(Spread(base, bundleMeta), k) == Lookup(bundleMeta, k) {
      LookupSpread(base, bundleMeta, k);
    }
    LookupSpread(base, bundleMeta, "reportTitle");
    LookupSpread(base, bundleMeta, "author");
    LookupSpread(base, bundleMeta, "pluginId");
    LookupSpread(base, bundleMeta, "generatedAt");
    MetaDefaultsLookup(pluginId, pluginName, reportType, bundleMeta, nowIso);
  }

  /** The defaults the engine supplies for the keys the bundle leaves out. */
  lemma MetaDefaultsLookup(pluginId: string, pluginName: string, reportType: string,
                           bundleMeta: seq<Prop>, nowIso: string)
    ensures var base := MetaDefaults(pluginId, pluginName, reportType, bundleMeta, nowIso);
      ("reportTitle" !in Keys(bundleMeta) ==> Lookup(base, "reportTitle") == Str(pluginName + " Report"))
      && ("author" !in Keys(bundleMeta) ==> Lookup(base, "author") == Str("Report Framework"))
      && Lookup(base, "pluginId") == Str(pluginId)
      && Lookup(base, "generatedAt") == Str(nowIso)
  {
    var base := MetaDefaults(pluginId, pluginName, reportType, bundleMeta, nowIso);
    assert DistinctKeys(base);
    LookupAt(base, 0);
    LookupAt(base, 3);
    LookupAt(base, 4);
    LookupAt(base, 5);
    if "reportTitle" !in Keys(bundleMeta) {
      LookupAbsent(bundleMeta, "reportTitle");
    }
    if "author" !in Keys(bundleMeta) {
      LookupAbsent(bundleMeta, "author");
    }
  }

  // ---------------------------------------------------------------
  // Template, conversion and file name
  // ---------------------------------------------------------------

  /** `renderTemplate`: a missing file and, for a Nunjucks template, a
      rendering error are reported with their own messages; an MDX
      template's rendering error escapes unchanged. */
  function RenderTemplate(env: Env, templatesDir: string, t: TemplateSpec, data: seq<Prop>): (r: Result<string>)
    ensures env.readFile(PathJoin(templatesDir, t.file)).None? ==>
              r == Err("Template file not found: " + PathJoin(templatesDir, t.file))
    ensures env.readFile(PathJoin(templatesDir, t.file)).Some? ==>
              var rendered := env.renderString(env.readFile(PathJoin(templatesDir, t.file)).value, data);
              (r.Ok? <==> rendered.Ok?) && (r.Ok? ==> r == rendered)
              && (r.Err? && t.templateType == Njk ==> r.msg == "Template rendering failed: " + rendered.msg)
  {
    var path := PathJoin(templatesDir, t.file);
    match env.readFile(path)
    case None => Err("Template file not found: " + path)
    case Some(content) =>
      var rendered := env.renderString(content, data);
      if t.templateType == Mdx then rendered
      else if rendered.Err? then Err("Template rendering failed: " + rendered.msg)
      else rendered
  }

  /** How a non-slide output format is produced, and its file extension. */
  function ConversionFor(format: string, t: TemplateType): (Conversion, string) {
    if format == "html" then (if t == Mdx then MdxToHtml(true) else MarkdownToHtml, "html")
    else if format == "pdf" then (if t == Mdx then MdxToPdf else MarkdownToPdf, "pdf")
    else if format == "mdx" then (if t == Mdx then (MdxToHtml(false), "html") else (Verbatim, "md"))
    else (Verbatim, "md")
  }

  /** HTML and PDF keep their name as extension; "mdx" becomes HTML only
      for an MDX template; the text is written unconverted exactly when the
      extension is "md". */
  lemma ExtensionChoice(format: string, t: TemplateType)
    requires format != "pptx"
    ensures var (c, ext) := ConversionFor(format, t);
      (format == "html" || format == "pdf" ==> ext == format)
      && (format == "mdx" ==> (ext == "html" <==> t == Mdx))
      && (c.Verbatim? <==> ext == "md")
      && (ext == "html" ==> c.MdxToHtml? || c.MarkdownToHtml?)
      && (ext == "html" || ext == "pdf" || ext == "md")
  {
  }

  /** `new Date().toISOString().replace(/[:.]/g, "-")` */
  function Timestamp(iso: string): (ts: string)
    ensures |ts| == |iso|
    ensures ':' !in ts && '.' !in ts
  {
    var ts := ReplaceChar(ReplaceChar(iso, ':', '-'), '.', '-');
    assert forall i :: 0 <= i < |ts| ==> ts[i] != ':' && ts[i] != '.';
    ts
  }

  /** `reportName || plugin.id` */
  function BaseName(reportName: Option<string>, id: string): string {
    if reportName.Some? && reportName.value != "" then reportName.value else id
  }

  /** `${baseName}-${timestamp}.${extension}` */
  function FileName(reportName: Option<string>, id: string, iso: string, ext: string): string {
    BaseName(reportName, id) + "-" + Timestamp(iso) + "." + ext
  }

  /** When neither the base name nor the extension holds a '.', the only
      '.' of the file name is the one in front of the extension. */
  lemma FileNameDot(reportName: Option<string>, id: string, iso: string, ext: string)
    requires '.' !in BaseName(reportName, id) && '.' !in ext
    ensures var name := FileName(reportName, id, iso, ext);
      forall i :: 0 <= i < |name| ==> (name[i] == '.' <==> i == |name| - |ext| - 1)
  {
    var base := BaseName(reportName, id);
    var ts := Timestamp(iso);
    var name := FileName(reportName, id, iso, ext);
    forall i | 0 <= i < |name| ensures name[i] == '.' <==> i == |name| - |ext| - 1 {
      if i < |base| {
        assert name[i] == base[i];
        assert base[i] in base;
      } else if i == |base| {
        assert name[i] == '-';
      } else if i <= |base| + |ts| {
        assert name[i] == ts[i - |base| - 1];
        assert ts[i - |base| - 1] in ts;
      } else if i > |base| + |ts| + 1 {
        assert name[i] == ext[i - |base| - |ts| - 2];
        assert ext[i - |base| - |ts| - 2] in ext;
      }
    }
  }

  /** `${plugin.id}-${reportType}-${Date.now()}.pptx` */
  function PptxFileName(id: string, reportType: string, nowMs: int): (name: string)
    ensures EndsWith(name, ".pptx")
  {
    var name := id + "-" + reportType + "-" + IntToString(nowMs) + ".pptx";
    assert name[|name| - 5..] == ".pptx";
    name
  }

  function FormatMessage(format: string, id: string): string {
    "Output format '" + format + "' not supported by plugin '" + id + "'"
  }

  function NoSpecMessage(reportType: string, id: string): string {
    "No specification found for report type '" + reportType + "' in plugin '" + id + "'"
  }

  /** `plugin.outputFormats.includes(outputFormat)`; a plugin whose formats
      are not an array has no `includes` to call. */
  function FormatCheck(formats: Option<seq<string>>, format: string, id: string): (r: Outcome)
    ensures r.Pass? <==> formats.Some? && format in formats.value
  {
    if formats.None? then Fail(ReadError(Undefined, "includes"))
    else if format in formats.value then Pass
    else Fail(FormatMessage(format, id))
  }

  /** The path `generateReport` returns for a report that was written. */
  function OutputPath(outputDir: string, reportName: Option<string>, id: string, reportType: string,
                      format: string, t: TemplateType, env: Env): string {
    if format == "pptx" then PathJoin(outputDir, PptxFileName(id, reportType, env.fileMs))
    else PathJoin(outputDir, FileName(reportName, id, env.fileIso, ConversionFor(format, t).1))
  }

  /** `outputDir = path.join(process.cwd(), "reports")`: the default
      applies only when no directory is passed. */
  function OutputDir(outputDir: Option<string>, cwd: string): string {
    match outputDir
    case Some(dir) => dir
    case None => PathJoin(cwd, "reports")
  }

  // ---------------------------------------------------------------
  // generateReport
  // ---------------------------------------------------------------

  /** The prompt step: the loop over the declared prompts, or no results
      at all when there are none. */
  function PromptStep(env: Env, promptsDir: string, spec: SpecConfig, b: Bundle,
                      signals: set<Checkpoint>): PromptRun {
    if |spec.prompts| > 0 then
      Prompts(spec.prompts, Effects(env, promptsDir, spec.prompts, b.ToValue().props), false, signals)
    else PromptRun([], Pass)
  }

  /** What the title slide asks for: the merged title and author. */
  function DeckFor(pluginName: string, metadata: seq<Prop>): DeckRequest {
    DeckRequest(Lookup(metadata, "reportTitle"), Lookup(metadata, "author"), pluginName + " Report")
  }

  /** The text written for a non-slide format: the rendered template,
      unchanged for Markdown output, otherwise through the converter. */
  function Content(env: Env, templatesDir: string, t: TemplateSpec, format: string,
                   ctx: seq<Prop>): (r: Result<string>)
    ensures RenderTemplate(env, templatesDir, t, ctx).Err? ==> r == RenderTemplate(env, templatesDir, t, ctx)
    ensures RenderTemplate(env, templatesDir, t, ctx).Ok? && ConversionFor(format, t.templateType).1 == "md" ==>
              r == RenderTemplate(env, templatesDir, t, ctx)
    ensures RenderTemplate(env, templatesDir, t, ctx).Ok? && ConversionFor(format, t.templateType).1 != "md" ==>
              r == env.convert(ConversionFor(format, t.templateType).0,
                               RenderTemplate(env, templatesDir, t, ctx).value, ctx)
  {
    var rendered := RenderTemplate(env, templatesDir, t, ctx);
    var conversion := ConversionFor(format, t.templateType).0;
    if rendered.Err? || conversion.Verbatim? then rendered
    else env.convert(conversion, rendered.value, ctx)
  }

  /** Steps 3 to 6 of `generateReport` on the processed bundle and the
      prompt results: a slide deck is exported from the bundle, any other
      format is rendered, converted and written; either way the report is at
      `OutputPath`, and it is there exactly when every effect succeeded. */
  function Publish(env: Env, pluginId: string, pluginName: string, templatesDir: string,
                   spec: SpecConfig, reportType: string, format: string, outputDir: string,
                   reportName: Option<string>, b: Bundle, llm: seq<Prop>): (r: Result<string>)
    ensures var ctx := RenderContext(b, llm, pluginId, pluginName, reportType, env.generatedIso);
      var path := OutputPath(outputDir, reportName, pluginId, reportType, format, spec.template.templateType, env);
      var rendered := RenderTemplate(env, templatesDir, spec.template, ctx);
      var content := Content(env, templatesDir, spec.template, format, ctx);
      var deck := DeckFor(pluginName, RenderMetadata(pluginId, pluginName, reportType, b.metadata, env.generatedIso));
      (rendered.Err? ==> r == Err(rendered.msg))
      && (format == "pptx" ==> (r.Ok? <==> rendered.Ok? && env.exportPptx(b, path, deck).Pass?))
      && (format != "pptx" ==> (r.Ok? <==> content.Ok? && env.writeFile(path, content.value).Pass?))
      && (r.Ok? ==> r.value == path)
  {
    var ctx := RenderContext(b, llm, pluginId, pluginName, reportType, env.generatedIso);
    var path := OutputPath(outputDir, reportName, pluginId, reportType, format, spec.template.templateType, env);
    var rendered := RenderTemplate(env, templatesDir, spec.template, ctx);
    if rendered.Err? then Err(rendered.msg)
    else if format == "pptx" then
      var deck := DeckFor(pluginName, RenderMetadata(pluginId, pluginName, reportType, b.metadata, env.generatedIso));
      var exported := env.exportPptx(b, path, deck);
      if exported.Fail? then Err(exported.msg) else Ok(path)
    else
      var content := Content(env, templatesDir, spec.template, format, ctx);
      if content.Err? then Err(content.msg)
      else
        var written := env.writeFile(path, content.value);
        if written.Fail? then Err(written.msg) else Ok(path)
  }

  /** Everything after the plugin's processing: the checkpoint after it,
      the prompts, the checkpoint before rendering, and publishing. */
  function AfterProcessingSteps(env: Env, promptsDir: string, pluginId: string, pluginName: string,
                                templatesDir: string, spec: SpecConfig, reportType: string, format: string,
                                outputDir: string, reportName: Option<string>, b: Bundle,
                                signals: set<Checkpoint>): Result<string>
  {
    if AfterProcessing in signals then Err(CancelledMessage)
    else
      var run := PromptStep(env, promptsDir, spec, b, signals);
      if run.outcome.Fail? then Err(run.outcome.msg)
      else if BeforeRendering in signals then Err(CancelledMessage)
      else Publish(env, pluginId, pluginName, templatesDir, spec, reportType, format,
                   outputDir, reportName, b, run.results)
  }

  /** `plugin.process(inputs)` as seen by the engine. */
  function Processed(plugin: Plugin, inputs: seq<Prop>, nowIso: string): Result<Bundle>
    reads plugin
    requires plugin.Valid()
  {
    if !plugin.initialized then Err(NotInitializedMessage(plugin.id))
    else Pipeline(plugin.id, plugin.version, plugin.inputs.value, plugin.hooks, inputs, nowIso).result
  }

  /** The whole of `generateReport` on the plugin's state, the shutdown
      flag, the signals and the effects. */
  function Generation(plugin: Plugin, shutting: bool, inputs: seq<Prop>, reportType: string,
                      format: string, outputDir: Option<string>, reportName: Option<string>,
                      env: Env, signals: set<Checkpoint>): (r: Result<string>)
    reads plugin
    requires plugin.Valid()
    ensures shutting || AtStart in signals ==> r == Err(CancelledMessage)
    ensures !shutting && AtStart !in signals && FormatCheck(plugin.outputFormats, format, plugin.id).Fail? ==>
              r == Err(FormatCheck(plugin.outputFormats, format, plugin.id).msg)
    ensures !shutting && AtStart !in signals && FormatCheck(plugin.outputFormats, format, plugin.id).Pass?
            && FindSpec(plugin.specifications, reportType).None? ==>
              r == Err(NoSpecMessage(reportType, plugin.id))
    ensures r.Ok? ==>
              !shutting && AtStart !in signals && AfterProcessing !in signals && BeforeRendering !in signals
              && FormatCheck(plugin.outputFormats, format, plugin.id).Pass?
              && FindSpec(plugin.specifications, reportType).Some?
              && plugin.initialized && Processed(plugin, inputs, env.nowIso).Ok?
              && r.value == OutputPath(OutputDir(outputDir, env.cwd), reportName, plugin.id, reportType, format,
                                       FindSpec(plugin.specifications, reportType).value.template.templateType, env)
  {
    if shutting || AtStart in signals then Err(CancelledMessage)
    else
      var formatOk := FormatCheck(plugin.outputFormats, format, plugin.id);
      if formatOk.Fail? then Err(formatOk.msg)
      else match FindSpec(plugin.specifications, reportType)
        case None => Err(NoSpecMessage(reportType, plugin.id))
        case Some(spec) =>
          var processed := Processed(plugin, inputs, env.nowIso);
          if processed.Err? then Err(processed.msg)
          else AfterProcessingSteps(env, plugin.promptsDir, plugin.id, plugin.name, plugin.templatesDir,
                                    spec, reportType, format, OutputDir(outputDir, env.cwd), reportName,
                                    processed.value, signals)
  }

  /** The results object holds each prompt name at most once. */
  lemma {:induction false} WrittenDistinct(ps: seq<PromptSpec>, effects: seq<PromptEffect>, k: nat)
    requires k <= |ps| && |effects| == |ps|
    ensures DistinctKeys(Written(ps, effects, k))
  {
    if k > 0 {
      WrittenDistinct(ps, effects, k - 1);
      DistinctAssign(Written(ps, effects, k - 1), ps[k - 1].name, Str(Answer(effects[k - 1])));
    }
  }

  /** Without a shutdown during the prompts, the template is rendered with
      each prompt's answer ("" for a failed prompt) under the prompt's name;
      of two prompts with one name the later one's answer is kept. */
  lemma AnswersReachTemplate(env: Env, promptsDir: string, spec: SpecConfig, b: Bundle,
                             signals: set<Checkpoint>, pluginId: string, pluginName: string,
                             reportType: string, j: nat)
    requires j < |spec.prompts|
    requires forall i :: 0 <= i < |spec.prompts| ==> BeforePrompt(i) !in signals
    requires forall i :: 0 <= i < |spec.prompts| ==>
               !Stops(Effect(env, promptsDir, spec.prompts[i], b.ToValue().props))
    requires forall l :: j < l < |spec.prompts| ==> spec.prompts[l].name != spec.prompts[j].name
    requires spec.prompts[j].name != "metadata"
    ensures var run := PromptStep(env, promptsDir, spec, b, signals);
      run.outcome.Pass?
      && Lookup(RenderContext(b, run.results, pluginId, pluginName, reportType, env.generatedIso), spec.prompts[j].name)
         == Str(Answer(Effect(env, promptsDir, spec.prompts[j], b.ToValue().props)))
  {
    var ps := spec.prompts;
    var effects := Effects(env, promptsDir, ps, b.ToValue().props);
    EveryPromptAnswered(ps, effects, signals, j);
    var k := StopIndex(effects, false, signals, 0);
    assert k == |ps|;
    var llm := Written(ps, effects, k);
    WrittenDistinct(ps, effects, k);
    if ps[j].name !in Keys(llm) {
      LookupAbsent(llm, ps[j].name);
    }
    RenderContextLookup(b, llm, pluginId, pluginName, reportType, env.generatedIso, ps[j].name);
  }

  /** A specification without prompts renders the bundle alone: every key
      but `metadata` reads the bundle's field. */
  lemma NoPromptsRenderBundle(env: Env, promptsDir: string, spec: SpecConfig, b: Bundle,
                              signals: set<Checkpoint>, pluginId: string, pluginName: string,
                              reportType: string, k: string)
    requires spec.prompts == [] && k != "metadata"
    ensures var run := PromptStep(env, promptsDir, spec, b, signals);
      run == PromptRun([], Pass)
      && Lookup(RenderContext(b, run.results, pluginId, pluginName, reportType, env.generatedIso), k)
         == Lookup(b.ToValue().props, k)
  {
    RenderContextLookup(b, [], pluginId, pluginName, reportType, env.generatedIso, k);
  }

  /** A signal after processing, before the first prompt or before
      rendering fails the report with the cancellation message, before any
      template is rendered or any file written. */
  lemma CancelledBeforePublishing(env: Env, promptsDir: string, pluginId: string, pluginName: string,
                                  templatesDir: string, spec: SpecConfig, reportType: string, format: string,
                                  outputDir: string, reportName: Option<string>, b: Bundle,
                                  signals: set<Checkpoint>)
    requires AfterProcessing in signals || BeforeRendering in signals
             || (spec.prompts != [] && BeforePrompt(0) in signals)
    ensures AfterProcessingSteps(env, promptsDir, pluginId, pluginName, templatesDir, spec, reportType,
                                 format, outputDir, reportName, b, signals) == Err(CancelledMessage)
  {
    if AfterProcessing !in signals && spec.prompts != [] && BeforePrompt(0) in signals {
      var effects := Effects(env, promptsDir, spec.prompts, b.ToValue().props);
      assert StopIndex(effects, false, signals, 0) == 0;
    }
  }

  /** Steps 2 to 6 of `generateReport`, once the plugin has produced its
      bundle, with the checkpoints between them. */
  method FinishReport(sm: Manager, env: Env, promptsDir: string, pluginId: string, pluginName: string,
                      templatesDir: string, spec: SpecConfig, reportType: string, format: string,
                      outputDir: string, reportName: Option<string>, attributes: Bundle,
                      signals: set<Checkpoint>)
    returns (r: Result<string>)
    requires !sm.shutting
    modifies sm
    ensures r == AfterProcessingSteps(env, promptsDir, pluginId, pluginName, templatesDir, spec, reportType,
                                      format, outputDir, reportName, attributes, signals)
    ensures sm.shutting ==> r == Err(CancelledMessage) && signals != {}
  {
    var c := Poll(sm, AfterProcessing, signals);
    if c.Fail? {
      return Err(c.msg);
    }

    // Step 2: the prompts, when there are any
    var llmResults: seq<Prop> := [];
    if |spec.prompts| > 0 {
      var promptsOk;
      llmResults, promptsOk := ProcessPrompts(sm, env, promptsDir, spec.prompts,
                                              attributes.ToValue().props, signals);
      if promptsOk.Fail? {
        return Err(promptsOk.msg);
      }
    }
    c := Poll(sm, BeforeRendering, signals);
    if c.Fail? {
      return Err(c.msg);
    }

    r := RenderAndWrite(env, pluginId, pluginName, templatesDir, spec, reportType, format,
                        outputDir, reportName, attributes, llmResults);
  }

  /** Steps 3 to 6 of `generateReport`: render the template with the merged
      context, export or convert, and write the file. */
  method RenderAndWrite(env: Env, pluginId: string, pluginName: string, templatesDir: string,
                        spec: SpecConfig, reportType: string, format: string, outputDir: string,
                        reportName: Option<string>, attributes: Bundle, llmResults: seq<Prop>)
    returns (r: Result<string>)
    ensures r == Publish(env, pluginId, pluginName, templatesDir, spec, reportType, format, outputDir,
                         reportName, attributes, llmResults)
  {
    // Steps 3 and 4: the render context and the template
    var renderContext := RenderContext(attributes, llmResults, pluginId, pluginName, reportType, env.generatedIso);
    var rendered := RenderTemplate(env, templatesDir, spec.template, renderContext);
    if rendered.Err? {
      return Err(rendered.msg);
    }
    var metadata := RenderMetadata(pluginId, pluginName, reportType, attributes.metadata, env.generatedIso);

    // Step 5: the output format
    if format == "pptx" {
      var pptxPath := PathJoin(outputDir, PptxFileName(pluginId, reportType, env.fileMs));
      var exported := env.exportPptx(attributes, pptxPath,
        DeckRequest(Lookup(metadata, "reportTitle"), Lookup(metadata, "author"), pluginName + " Report"));
      if exported.Fail? {
        return Err(exported.msg);
      }
      return Ok(pptxPath);
    }
    var (conversion, extension) := ConversionFor(format, spec.template.templateType);
    var finalOutput := if conversion.Verbatim? then Ok(rendered.value)
                       else env.convert(conversion, rendered.value, renderContext);
    if finalOutput.Err? {
      return Err(finalOutput.msg);
    }

    // Step 6: the file
    var outputPath := PathJoin(outputDir, FileName(reportName, pluginId, env.fileIso, extension));
    var written := env.writeFile(outputPath, finalOutput.value);
    if written.Fail? {
      return Err(written.msg);
    }
    r := Ok(outputPath);
  }

  /** `generateReport`. The shutdown flag is polled before starting, after
      processing, before each prompt and before rendering; the format and
      report-type checks fail before the plugin runs. */
  method GenerateReport(sm: Manager, plugin: Plugin, inputs: seq<Prop>, reportType: string,
                        format: string, outputDir: Option<string>, reportName: Option<string>,
                        env: Env, signals: set<Checkpoint>)
    returns (r: Result<string>)
    requires plugin.Valid()
    modifies sm, plugin
    ensures plugin.Valid() && plugin.initialized == old(plugin.initialized)
    ensures r == old(Generation(plugin, sm.shutting, inputs, reportType, format, outputDir, reportName,
                                env, signals))
    ensures sm.shutting ==> r == Err(CancelledMessage)
    ensures sm.shutting ==> old(sm.shutting) || signals != {}
    ensures (old(sm.shutting) || AtStart in signals
             || FormatCheck(plugin.outputFormats, format, plugin.id).Fail?
             || FindSpec(plugin.specifications, reportType).None?) ==> unchanged(plugin)
  {
    var dir := OutputDir(outputDir, env.cwd);
    var c := Poll(sm, AtStart, signals);
    if c.Fail? {
      return Err(c.msg);
    }
    var formatOk := FormatCheck(plugin.outputFormats, format, plugin.id);
    if formatOk.Fail? {
      return Err(formatOk.msg);
    }
    var found := FindSpec(plugin.specifications, reportType);
    if found.None? {
      return Err(NoSpecMessage(reportType, plugin.id));
    }
    var spec := found.value;

    // Step 1: the plugin's processing
    var processed, calls := plugin.Process(inputs, env.nowMs, env.nowIso);
    if processed.Err? {
      return Err(processed.msg);
    }
    r := FinishReport(sm, env, plugin.promptsDir, plugin.id, plugin.name, plugin.templatesDir, spec,
                      reportType, format, dir, reportName, processed.value, signals);
  }
}
