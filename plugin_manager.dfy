/** The web UI's process-wide plugin registry: built from the plugins
    directory on first use, kept in a module-level cache, and rebuilt from
    disk whenever a reload is asked for. The contents of the plugins
    directory at the moment of each load are a parameter. */
module PluginManager {
  import opened Wrappers
  import PluginBase
  import PluginRegistry
  import PluginLoader

  type Plugin = PluginBase.Plugin
  type Registry = PluginRegistry.Registry

  const FrameworkVersion := "1.0.0"

  /** The context the UI initialises every plugin with; the working
      directory is the server process's. */
  function UiContext(workDir: string): PluginBase.Context {
    PluginBase.Context(workDir, FrameworkVersion)
  }

  /** The ids a fresh registry holds after loading from the plugins
      directory; `None` is a directory that does not exist. */
  function LoadedIds(dir: Option<seq<PluginLoader.Entry>>): (ids: seq<string>) {
    if dir.None? then [] else PluginLoader.ScanIds([], PluginLoader.PluginDirs(dir.value))
  }

  /** A fresh load never yields the same id twice. */
  lemma LoadedIdsDistinct(dir: Option<seq<PluginLoader.Entry>>)
    ensures PluginRegistry.Distinct(LoadedIds(dir))
  {
    if dir.Some? {
      PluginLoader.ScanGrows([], PluginLoader.PluginDirs(dir.value));
    }
  }

  /** What the UI shows for one pipeline: its metadata and the keys of its
      specification map. */
  datatype PipelineInfo = PipelineInfo(
    id: string,
    name: string,
    description: string,
    version: string,
    outputFormats: Option<seq<string>>,
    inputs: Option<seq<PluginBase.InputField>>,
    specifications: seq<string>)

  function InfoOf(p: Plugin): (info: PipelineInfo)
    ensures info.id == p.id && info.name == p.name && info.version == p.version
    ensures info.description == p.description
    ensures info.inputs == p.inputs && info.outputFormats == p.outputFormats
    ensures |info.specifications| == |p.specifications|
    ensures forall i :: 0 <= i < |p.specifications| ==> info.specifications[i] == p.specifications[i].reportType
  {
    PipelineInfo(p.id, p.name, p.description, p.version, p.outputFormats, p.inputs,
      PluginBase.SpecKeys(p.specifications))
  }

  /** `plugins.map(...)` of `getPipelines`: one description per plugin, in order. */
  method Describe(plugins: seq<Plugin>) returns (infos: seq<PipelineInfo>)
    ensures |infos| == |plugins|
    ensures forall j :: 0 <= j < |plugins| ==> infos[j] == InfoOf(plugins[j])
  {
    infos := [];
    var i := 0;
    while i < |plugins|
      invariant 0 <= i <= |plugins|
      invariant |infos| == i
      invariant forall j :: 0 <= j < i ==> infos[j] == InfoOf(plugins[j])
    {
      infos := infos + [InfoOf(plugins[i])];
      i := i + 1;
    }
  }

  function NotFoundMessage(id: string): string {
    "Plugin not found: " + id
  }

  /** `initializeRegistry`: a new registry filled from the plugins directory. */
  method InitializeRegistry(dir: Option<seq<PluginLoader.Entry>>, workDir: string) returns (r: Registry)
    ensures fresh(r)
    ensures r.Valid() && r.ids == LoadedIds(dir)
  {
    r := new PluginRegistry.Registry();
    var log := PluginLoader.LoadFromDirectory(r, dir, UiContext(workDir));
  }

  /** The module's state: `globalRegistry`, `null` until first used. */
  class Manager {
    var cache: Option<Registry>

    ghost predicate Valid()
      reads this, if cache.Some? then {cache.value} else {}
      reads if cache.Some? then cache.value.plugins.Values else {}
    {
      cache.Some? ==> cache.value.Valid()
    }

    constructor ()
      ensures cache.None? && Valid()
    {
      cache := None;
    }

    /** `getPluginRegistry`: the cached registry, built first when there is none. */
    method GetPluginRegistry(dir: Option<seq<PluginLoader.Entry>>, workDir: string) returns (r: Registry)
      requires Valid()
      modifies this
      ensures Valid() && cache == Some(r)
      ensures old(cache).Some? ==> r == old(cache).value
      ensures old(cache).None? ==> fresh(r) && r.ids == LoadedIds(dir)
    {
      if cache.None? {
        var built := InitializeRegistry(dir, workDir);
        cache := Some(built);
      }
      r := cache.value;
    }

    /** `reloadPlugins`: forget the cache and load again from disk. */
    method ReloadPlugins(dir: Option<seq<PluginLoader.Entry>>, workDir: string)
      requires Valid()
      modifies this
      ensures Valid() && cache.Some?
      ensures fresh(cache.value) && cache.value.ids == LoadedIds(dir)
    {
      cache := None;
      var r := GetPluginRegistry(dir, workDir);
    }

    /** `clearPluginCache` */
    method ClearPluginCache()
      modifies this
      ensures cache.None? && Valid()
    {
      cache := None;
    }

    /** `getPipelines`: always reloads, then describes every plugin in
        registration order. */
    method GetPipelines(dir: Option<seq<PluginLoader.Entry>>, workDir: string) returns (infos: seq<PipelineInfo>)
      requires Valid()
      modifies this
      ensures Valid() && cache.Some? && fresh(cache.value)
      ensures cache.value.ids == LoadedIds(dir)
      ensures |infos| == |LoadedIds(dir)|
      ensures forall i :: 0 <= i < |infos| ==>
        infos[i] == InfoOf(cache.value.plugins[cache.value.ids[i]]) && infos[i].id == LoadedIds(dir)[i]
    {
      ReloadPlugins(dir, workDir);
      var registry := GetPluginRegistry(dir, workDir);
      var plugins := registry.GetAll();
      infos := Describe(plugins);
    }

    /** `getPlugin`: the registered plugin with this id, from a registry that
        is reloaded first only when asked to. */
    method GetPlugin(id: string, forceReload: bool, dir: Option<seq<PluginLoader.Entry>>, workDir: string)
      returns (p: Option<Plugin>)
      requires Valid()
      modifies this
      ensures Valid() && cache.Some?
      ensures !forceReload && old(cache).Some? ==> cache == old(cache)
      ensures forceReload || old(cache).None? ==> fresh(cache.value) && cache.value.ids == LoadedIds(dir)
      ensures p.Some? <==> id in cache.value.ids
      ensures p.Some? ==> p.value == cache.value.plugins[id] && p.value.id == id
    {
      if forceReload {
        ReloadPlugins(dir, workDir);
      }
      var registry := GetPluginRegistry(dir, workDir);
      p := registry.Get(id);
    }

    /** `getPluginMetadata`: the description of one plugin from the cached
        registry, or the not-found error. */
    method GetPluginMetadata(id: string, dir: Option<seq<PluginLoader.Entry>>, workDir: string)
      returns (r: Result<PipelineInfo>)
      requires Valid()
      modifies this
      ensures Valid() && cache.Some?
      ensures old(cache).Some? ==> cache == old(cache)
      ensures old(cache).None? ==> fresh(cache.value) && cache.value.ids == LoadedIds(dir)
      ensures r.Err? <==> id !in cache.value.ids
      ensures r.Err? ==> r.msg == NotFoundMessage(id)
      ensures r.Ok? ==> r.value == InfoOf(cache.value.plugins[id]) && r.value.id == id
    {
      var p := GetPlugin(id, false, dir, workDir);
      if p.None? {
        return Err(NotFoundMessage(id));
      }
      r := Ok(InfoOf(p.value));
    }
  }
}
