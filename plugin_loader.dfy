/** Discovery of plugins in a plugins directory: which directories are
    scanned, which entry file is used, the duck-typed capability check, and
    the per-plugin skip / initialise / register decisions. One plugin's
    failure never stops the scan. */
module PluginLoader {
  import opened Wrappers
  import opened Js
  import opened Checks
  import PluginBase
  import PluginRegistry

  // ---------------------------------------------------------------
  // Duck typing
  // ---------------------------------------------------------------

  /** `isValidPlugin`: an object with string `id`, `name` and `version` and
      callable `initialize`, `process` and `getSpecifications`. */
  predicate IsValidPlugin(obj: Value) {
    Truthy(obj) && TypeOf(obj) == "object"
    && TypeOf(OptGet(obj, "id")) == "string"
    && TypeOf(OptGet(obj, "name")) == "string"
    && TypeOf(OptGet(obj, "version")) == "string"
    && TypeOf(OptGet(obj, "initialize")) == "function"
    && TypeOf(OptGet(obj, "process")) == "function"
    && TypeOf(OptGet(obj, "getSpecifications")) == "function"
  }

  /** The properties `getMissingProperties` looks for, in order. */
  const RequiredProperties: seq<string> := [
    "id", "name", "version", "description", "inputs", "outputFormats",
    "initialize", "process", "getSpecifications", "getPromptsDir", "getTemplatesDir"]

  /** `required.filter(prop => !(prop in obj) || obj[prop] === undefined)`:
      an absent property reads as undefined. */
  function MissingOf(required: seq<string>, props: seq<Prop>): (missing: seq<string>)
    ensures forall p :: p in missing <==> p in required && Lookup(props, p).Undefined?
    ensures |missing| <= |required|
  {
    if required == [] then []
    else
      (if Lookup(props, required[0]).Undefined? then [required[0]] else [])
      + MissingOf(required[1..], props)
  }

  /** `getMissingProperties`: the missing names joined by ", ", or "none". */
  function MissingProperties(props: seq<Prop>): string {
    var missing := MissingOf(RequiredProperties, props);
    if missing == [] then "none" else Join(missing, ", ")
  }

  /** The filter keeps the order of the required list: the missing names
      among `a + b` are those among `a` followed by those among `b`. */
  lemma {:induction false} MissingOfAppend(a: seq<string>, b: seq<string>, props: seq<Prop>)
    ensures MissingOf(a + b, props) == MissingOf(a, props) + MissingOf(b, props)
  {
    if a == [] {
      assert a + b == b;
    } else {
      assert (a + b)[0] == a[0] && (a + b)[1..] == a[1..] + b;
      MissingOfAppend(a[1..], b, props);
    }
  }

  /** A plugin that passes the capability check is never reported as missing
      its id, name, version or the three methods that check looks at; "none"
      is reported exactly when nothing is missing. */
  lemma MissingPropertiesAgree(props: seq<Prop>)
    ensures IsValidPlugin(Obj(props)) ==>
      forall p :: p in MissingOf(RequiredProperties, props) ==>
        p in ["description", "inputs", "outputFormats", "getPromptsDir", "getTemplatesDir"]
    ensures MissingProperties(props) == "none"
        <==> forall p :: p in RequiredProperties ==> !Lookup(props, p).Undefined?
  {
    var missing := MissingOf(RequiredProperties, props);
    if missing != [] {
      assert missing[0] in missing;
      var s := Join(missing, ", ");
      NoneIsNotAList(missing);
    }
  }

  /** No property name list joins to the word "none". */
  lemma NoneIsNotAList(missing: seq<string>)
    requires missing != []
    requires forall p :: p in missing ==> p in RequiredProperties
    ensures Join(missing, ", ") != "none"
  {
    if |missing| == 1 {
      assert missing[0] in missing;
    } else {
      assert missing[0] in missing;
      var s := Join(missing, ", ");
      assert s == missing[0] + ", " + Join(missing[1..], ", ");
      assert |s| >= |missing[0]| + 2;
    }
  }

  // ---------------------------------------------------------------
  // The plugins directory
  // ---------------------------------------------------------------

  /** What the instance's class provides beyond the duck-typed properties:
      the typed metadata and the plugin's own code. */
  datatype Declared = Declared(
    inputs: Option<seq<PluginBase.InputField>>,
    outputFormats: Option<seq<string>>,
    specifications: PluginBase.SpecMap,
    promptsDir: string,
    templatesDir: string,
    hooks: PluginBase.Hooks)

  /** What `new PluginClass()` gives for a module's default export. */
  datatype Export =
    | NotAClass                                    // typeof default export !== "function"
    | ConstructorThrows(msg: string)
    | Instance(props: seq<Prop>, declared: Declared) // the instance's properties, own and inherited

  /** What importing an entry file gives. */
  datatype ModuleLoad = ImportFails(msg: string) | Loaded(exported: Export)

  /** A directory entry of the plugins directory, with the entry files it holds. */
  datatype Entry = Entry(
    name: string,
    isDirectory: bool,
    indexTs: Option<ModuleLoad>,
    indexJs: Option<ModuleLoad>)

  /** The directory filter of `loadFromDirectory`. */
  predicate IsPluginDir(e: Entry) {
    e.isDirectory && e.name != "node_modules" && e.name != "dist" && !StartsWith(e.name, ".")
  }

  function PluginDirs(entries: seq<Entry>): (dirs: seq<Entry>)
    ensures forall e :: e in dirs ==> e in entries && IsPluginDir(e)
    ensures forall i :: 0 <= i < |entries| && IsPluginDir(entries[i]) ==> entries[i] in dirs
    ensures |dirs| <= |entries|
  {
    if entries == [] then []
    else (if IsPluginDir(entries[0]) then [entries[0]] else []) + PluginDirs(entries[1..])
  }

  /** `index.ts` is preferred; `index.js` is used only without it. */
  function EntryFile(e: Entry): Option<ModuleLoad> {
    if e.indexTs.Some? then e.indexTs else e.indexJs
  }

  /** What happened to one plugin directory. */
  datatype Decision =
    | NoIndex
    | ImportFailed(msg: string)
    | ExportNotAClass
    | ConstructorFailed(msg: string)
    | Invalid(missing: string)
    | Duplicate(id: string)
    | InitFailed(id: string, msg: string)
    | Registered(id: string)

  function StrOf(v: Value): string {
    if v.Str? then v.s else ""
  }

  /** The outcome `initialize` has on a fresh plugin with this metadata. */
  function InitOutcome(props: seq<Prop>, d: Declared): Outcome {
    var errors := FailedMessages(PluginBase.MetadataChecks(
      StrOf(Lookup(props, "id")), StrOf(Lookup(props, "version")), StrOf(Lookup(props, "name")),
      StrOf(Lookup(props, "description")), d.inputs, d.outputFormats));
    if errors != [] then Fail(PluginBase.MetadataFailureMessage(errors)) else d.hooks.onInit
  }

  /** The decision for one plugin directory, given the ids registered so far. */
  function Decide(e: Entry, ids: seq<string>): Decision {
    match EntryFile(e)
    case None => NoIndex
    case Some(ImportFails(msg)) => ImportFailed(msg)
    case Some(Loaded(NotAClass)) => ExportNotAClass
    case Some(Loaded(ConstructorThrows(msg))) => ConstructorFailed(msg)
    case Some(Loaded(Instance(props, d))) => DecideInstance(props, d, ids)
  }

  /** The decision for a constructed instance: the capability check, the
      duplicate check, then `initialize`. */
  function DecideInstance(props: seq<Prop>, d: Declared, ids: seq<string>): Decision {
    if !IsValidPlugin(Obj(props)) then Invalid(MissingProperties(props))
    else
      var id := Lookup(props, "id").s;
      if id in ids then Duplicate(id)
      else
        var init := InitOutcome(props, d);
        if init.Fail? then InitFailed(id, init.msg) else Registered(id)
  }

  /** The ids after one directory's decision: its id is added when it registers. */
  function Next(d: Decision, ids: seq<string>): seq<string> {
    if d.Registered? then ids + [d.id] else ids
  }

  /** Scanning `dirs` in order, each directory decided by `decide` against
      the ids registered so far. The scan lemmas below are proved for any
      decision function and used with `Decide`. */
  function ScanBy(decide: (Entry, seq<string>) -> Decision, ids: seq<string>, dirs: seq<Entry>): seq<string>
    decreases |dirs|
  {
    if dirs == [] then ids
    else ScanBy(decide, Next(decide(dirs[0], ids), ids), dirs[1..])
  }

  /** The ids registered after scanning `dirs` in order. */
  function ScanIds(ids: seq<string>, dirs: seq<Entry>): seq<string> {
    ScanBy(Decide, ids, dirs)
  }

  lemma {:induction false} ScanAppendBy(decide: (Entry, seq<string>) -> Decision, ids: seq<string>, a: seq<Entry>, b: seq<Entry>)
    ensures ScanBy(decide, ids, a + b) == ScanBy(decide, ScanBy(decide, ids, a), b)
    decreases |a|
  {
    if a == [] {
      assert a + b == b;
    } else {
      assert (a + b)[0] == a[0] && (a + b)[1..] == a[1..] + b;
      ScanAppendBy(decide, Next(decide(a[0], ids), ids), a[1..], b);
    }
  }

  /** Scanning is a left fold: a later directory sees exactly the ids the
      earlier ones left, whatever happened to any of them. */
  lemma ScanAppend(ids: seq<string>, a: seq<Entry>, b: seq<Entry>)
    ensures ScanIds(ids, a + b) == ScanIds(ScanIds(ids, a), b)
  {
    ScanAppendBy(Decide, ids, a, b);
  }

  lemma ScanStepBy(decide: (Entry, seq<string>) -> Decision, ids: seq<string>, dirs: seq<Entry>, i: nat)
    requires i < |dirs|
    ensures ScanBy(decide, ids, dirs[..i + 1])
      == Next(decide(dirs[i], ScanBy(decide, ids, dirs[..i])), ScanBy(decide, ids, dirs[..i]))
  {
    ScanAppendBy(decide, ids, dirs[..i], [dirs[i]]);
    assert dirs[..i] + [dirs[i]] == dirs[..i + 1];
    assert [dirs[i]][1..] == [];
  }

  /** One more directory: the ids after it are those before it, plus its
      id when it registers. */
  lemma ScanStep(ids: seq<string>, dirs: seq<Entry>, i: nat)
    requires i < |dirs|
    ensures var before := ScanIds(ids, dirs[..i]);
      var d := Decide(dirs[i], before);
      ScanIds(ids, dirs[..i + 1]) == if d.Registered? then before + [d.id] else before
  {
    ScanStepBy(Decide, ids, dirs, i);
  }

  /** The decision for each directory of a scan, in order. */
  function DecisionsBy(decide: (Entry, seq<string>) -> Decision, ids: seq<string>, dirs: seq<Entry>): seq<Decision>
    decreases |dirs|
  {
    if dirs == [] then []
    else
      var k := |dirs| - 1;
      DecisionsBy(decide, ids, dirs[..k]) + [decide(dirs[k], ScanBy(decide, ids, dirs[..k]))]
  }

  function Decisions(ids: seq<string>, dirs: seq<Entry>): seq<Decision> {
    DecisionsBy(Decide, ids, dirs)
  }

  lemma DecisionsStep(ids: seq<string>, dirs: seq<Entry>, i: nat)
    requires i < |dirs|
    ensures Decisions(ids, dirs[..i + 1]) == Decisions(ids, dirs[..i]) + [Decide(dirs[i], ScanIds(ids, dirs[..i]))]
  {
    assert dirs[..i + 1][..i] == dirs[..i];
  }

  lemma {:induction false} DecisionsLengthBy(decide: (Entry, seq<string>) -> Decision, ids: seq<string>, dirs: seq<Entry>)
    ensures |DecisionsBy(decide, ids, dirs)| == |dirs|
    decreases |dirs|
  {
    if dirs != [] {
      DecisionsLengthBy(decide, ids, dirs[..|dirs| - 1]);
    }
  }

  lemma {:induction false} DecisionAtBy(decide: (Entry, seq<string>) -> Decision, ids: seq<string>, dirs: seq<Entry>, i: nat)
    requires i < |dirs|
    ensures |DecisionsBy(decide, ids, dirs)| == |dirs|
    ensures DecisionsBy(decide, ids, dirs)[i] == decide(dirs[i], ScanBy(decide, ids, dirs[..i]))
    decreases |dirs|
  {
    var k := |dirs| - 1;
    DecisionsLengthBy(decide, ids, dirs);
    DecisionsLengthBy(decide, ids, dirs[..k]);
    if i < k {
      DecisionAtBy(decide, ids, dirs[..k], i);
      assert dirs[..k][..i] == dirs[..i];
    }
  }

  /** Directory i is decided against the ids the directories before it left. */
  lemma DecisionsAt(ids: seq<string>, dirs: seq<Entry>)
    ensures |Decisions(ids, dirs)| == |dirs|
    ensures forall i :: 0 <= i < |dirs| ==> Decisions(ids, dirs)[i] == Decide(dirs[i], ScanIds(ids, dirs[..i]))
  {
    DecisionsLengthBy(Decide, ids, dirs);
    forall i | 0 <= i < |dirs|
      ensures Decisions(ids, dirs)[i] == Decide(dirs[i], ScanIds(ids, dirs[..i]))
    {
      DecisionAtBy(Decide, ids, dirs, i);
    }
  }

  /** `decide` registers only ids not yet registered. */
  ghost predicate AddsFreshIds(decide: (Entry, seq<string>) -> Decision) {
    forall e, ids :: decide(e, ids).Registered? ==> decide(e, ids).id !in ids
  }

  lemma DecideAddsFreshIds()
    ensures AddsFreshIds(Decide)
  {
    forall e, ids ensures Decide(e, ids).Registered? ==> Decide(e, ids).id !in ids { }
  }

  lemma {:induction false} ScanGrowsBy(decide: (Entry, seq<string>) -> Decision, ids: seq<string>, dirs: seq<Entry>)
    requires AddsFreshIds(decide)
    requires PluginRegistry.Distinct(ids)
    ensures ids <= ScanBy(decide, ids, dirs)
    ensures PluginRegistry.Distinct(ScanBy(decide, ids, dirs))
    decreases |dirs|
  {
    if dirs != [] {
      var next := Next(decide(dirs[0], ids), ids);
      assert PluginRegistry.Distinct(next);
      ScanGrowsBy(decide, next, dirs[1..]);
    }
  }

  /** Registering never removes or reorders what is there, never adds an id
      twice, and adds only ids of plugins that initialised successfully;
      the first plugin loaded under an id wins. */
  lemma ScanGrows(ids: seq<string>, dirs: seq<Entry>)
    requires PluginRegistry.Distinct(ids)
    ensures ids <= ScanIds(ids, dirs)
    ensures PluginRegistry.Distinct(ScanIds(ids, dirs))
  {
    DecideAddsFreshIds();
    ScanGrowsBy(Decide, ids, dirs);
  }

  /** A directory that is skipped, or whose plugin fails, leaves the ids
      unchanged, and the scan goes on with the next directory. */
  lemma SkippedDirNoEffect(ids: seq<string>, before: seq<Entry>, e: Entry, after: seq<Entry>)
    requires !Decide(e, ScanIds(ids, before)).Registered?
    ensures ScanIds(ids, before + [e] + after) == ScanIds(ScanIds(ids, before), after)
  {
    ScanAppend(ids, before + [e], after);
    ScanAppend(ids, before, [e]);
    var x := ScanIds(ids, before);
    assert [e][0] == e && [e][1..] == [];
    assert ScanBy(Decide, x, [e]) == ScanBy(Decide, Next(Decide(e, x), x), []);
  }

  /** A plugin whose id is already registered is skipped before `initialize`. */
  lemma DuplicateSkippedBeforeInit(e: Entry, ids: seq<string>)
    requires EntryFile(e).Some? && EntryFile(e).value.Loaded? && EntryFile(e).value.exported.Instance?
    requires IsValidPlugin(Obj(EntryFile(e).value.exported.props))
    requires Lookup(EntryFile(e).value.exported.props, "id").s in ids
    ensures Decide(e, ids) == Duplicate(Lookup(EntryFile(e).value.exported.props, "id").s)
  {
  }

  // ---------------------------------------------------------------
  // The loader
  // ---------------------------------------------------------------

  /** `loadPluginTypescript` / `loadPlugin` for one directory: import,
      construct, check, skip duplicates, initialise, register. Every error
      is caught, so the registry is changed only by a successful register. */
  method LoadOne(registry: PluginRegistry.Registry, e: Entry, ctx: PluginBase.Context) returns (d: Decision)
    requires registry.Valid()
    modifies registry
    ensures registry.Valid()
    ensures d == Decide(e, old(registry.ids))
    ensures registry.ids == if d.Registered? then old(registry.ids) + [d.id] else old(registry.ids)
    ensures forall k :: k in old(registry.plugins) ==> k in registry.plugins && registry.plugins[k] == old(registry.plugins[k])
    ensures d.Registered? ==> d.id in registry.plugins && fresh(registry.plugins[d.id])
                              && registry.plugins[d.id].initialized
  {
    var file := EntryFile(e);
    if file.None? {
      return NoIndex;
    }
    match file.value {
      case ImportFails(msg) => return ImportFailed(msg);
      case Loaded(exported) =>
        match exported {
          case NotAClass => return ExportNotAClass;
          case ConstructorThrows(msg) => return ConstructorFailed(msg);
          case Instance(props, decl) =>
            d := LoadInstance(registry, props, decl, ctx);
        }
    }
  }

  /** Check, skip a duplicate, construct, initialise and register one instance. */
  /** `new PluginClass()` followed by `initialize(context)`. */
  method Instantiate(id: string, props: seq<Prop>, decl: Declared, ctx: PluginBase.Context)
    returns (plugin: PluginBase.Plugin, init: Outcome)
    requires Lookup(props, "id") == Str(id)
    ensures fresh(plugin) && plugin.Valid() && plugin.id == id
    ensures init == InitOutcome(props, decl)
    ensures plugin.initialized <==> init.Pass?
  {
    plugin := new PluginBase.Plugin(id, StrOf(Lookup(props, "version")), StrOf(Lookup(props, "name")),
      StrOf(Lookup(props, "description")), decl.inputs, decl.outputFormats,
      decl.specifications, decl.promptsDir, decl.templatesDir, decl.hooks);
    init := plugin.Initialize(ctx);
    assert plugin.MetadataErrors() == FailedMessages(PluginBase.MetadataChecks(
      StrOf(Lookup(props, "id")), StrOf(Lookup(props, "version")), StrOf(Lookup(props, "name")),
      StrOf(Lookup(props, "description")), decl.inputs, decl.outputFormats));
  }

  method LoadInstance(registry: PluginRegistry.Registry, props: seq<Prop>, decl: Declared, ctx: PluginBase.Context)
    returns (d: Decision)
    requires registry.Valid()
    modifies registry
    ensures registry.Valid()
    ensures d == DecideInstance(props, decl, old(registry.ids))
    ensures registry.ids == if d.Registered? then old(registry.ids) + [d.id] else old(registry.ids)
    ensures forall k :: k in old(registry.plugins) ==> k in registry.plugins && registry.plugins[k] == old(registry.plugins[k])
    ensures d.Registered? ==> d.id in registry.plugins && fresh(registry.plugins[d.id])
                              && registry.plugins[d.id].initialized
  {
    if !IsValidPlugin(Obj(props)) {
      return Invalid(MissingProperties(props));
    }
    var id := Lookup(props, "id").s;
    var known := registry.Has(id);
    if known {
      return Duplicate(id);
    }
    var plugin, init := Instantiate(id, props, decl, ctx);
    if init.Fail? {
      return InitFailed(id, init.msg);
    }
    registry.Register(plugin);
    d := Registered(id);
  }

  /** `loadFromDirectory`. `entries` is None when the plugins directory does
      not exist. Returns what happened to each plugin directory, in order. */
  method LoadFromDirectory(registry: PluginRegistry.Registry, entries: Option<seq<Entry>>, ctx: PluginBase.Context)
    returns (log: seq<Decision>)
    requires registry.Valid()
    modifies registry
    ensures registry.Valid()
    ensures entries.None? ==>
      log == [] && registry.ids == old(registry.ids) && registry.plugins == old(registry.plugins)
    ensures entries.Some? ==>
      var dirs := PluginDirs(entries.value);
      registry.ids == ScanIds(old(registry.ids), dirs)
      && |log| == |dirs|
      && (forall i :: 0 <= i < |dirs| ==> log[i] == Decide(dirs[i], ScanIds(old(registry.ids), dirs[..i])))
    ensures forall k :: k in old(registry.plugins) ==> k in registry.plugins && registry.plugins[k] == old(registry.plugins[k])
  {
    log := [];
    if entries.None? {
      return;
    }
    log := LoadDirs(registry, PluginDirs(entries.value), ctx);
    DecisionsAt(old(registry.ids), PluginDirs(entries.value));
  }

  /** The loop of `loadFromDirectory` over the plugin directories. */
  method LoadDirs(registry: PluginRegistry.Registry, dirs: seq<Entry>, ctx: PluginBase.Context)
    returns (log: seq<Decision>)
    requires registry.Valid()
    modifies registry
    ensures registry.Valid()
    ensures registry.ids == ScanIds(old(registry.ids), dirs)
    ensures log == Decisions(old(registry.ids), dirs)
    ensures forall k :: k in old(registry.plugins) ==> k in registry.plugins && registry.plugins[k] == old(registry.plugins[k])
  {
    log := [];
    var i := 0;
    while i < |dirs|
      invariant 0 <= i <= |dirs|
      invariant registry.Valid()
      invariant registry.ids == ScanIds(old(registry.ids), dirs[..i])
      invariant log == Decisions(old(registry.ids), dirs[..i])
      invariant forall k :: k in old(registry.plugins) ==> k in registry.plugins && registry.plugins[k] == old(registry.plugins[k])
    {
      var d := LoadOne(registry, dirs[i], ctx);
      ScanStep(old(registry.ids), dirs, i);
      DecisionsStep(old(registry.ids), dirs, i);
      log := log + [d];
      i := i + 1;
    }
    assert dirs[..|dirs|] == dirs;
  }
}
