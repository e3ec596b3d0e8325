/** The registry of loaded plugins: a map from plugin id to plugin that, like
    a JavaScript `Map`, remembers the order in which ids were first added. */
module PluginRegistry {
  import opened Wrappers
  import PluginBase

  type Plugin = PluginBase.Plugin

  /** What `list()` reports for one plugin. */
  datatype Summary = Summary(
    id: string,
    name: string,
    version: string,
    description: string,
    inputs: Option<seq<PluginBase.InputField>>,
    outputFormats: Option<seq<string>>)

  function SummaryOf(p: Plugin): Summary {
    Summary(p.id, p.name, p.version, p.description, p.inputs, p.outputFormats)
  }

  predicate Distinct(ids: seq<string>) {
    forall i, j :: 0 <= i < j < |ids| ==> ids[i] != ids[j]
  }

  /** The index of the first plugin whose cleanup hook throws, or the number
      of plugins when none does. */
  function FirstFailingCleanup(ps: seq<Plugin>): (n: nat)
    ensures n <= |ps|
    ensures forall i :: 0 <= i < n ==> ps[i].hooks.onCleanup.Pass?
    ensures n < |ps| ==> ps[n].hooks.onCleanup.Fail?
  {
    if ps == [] then 0
    else if ps[0].hooks.onCleanup.Fail? then 0
    else 1 + FirstFailingCleanup(ps[1..])
  }

  class Registry {
    /** Keys in insertion order. */
    var ids: seq<string>
    var plugins: map<string, Plugin>

    ghost predicate Valid()
      reads this, plugins.Values
    {
      Distinct(ids)
      && (forall k :: k in plugins <==> k in ids)
      && (forall k :: k in plugins ==> plugins[k].id == k)
      && (forall k :: k in plugins ==> plugins[k].Valid())
    }

    constructor ()
      ensures Valid() && ids == [] && plugins == map[]
    {
      ids := [];
      plugins := map[];
    }

    /** `register`: stores the plugin under its id. A known id keeps its
        position and has its entry replaced; a new id goes last. */
    method Register(p: Plugin)
      requires Valid() && p.Valid()
      modifies this
      ensures Valid()
      ensures plugins == old(plugins)[p.id := p]
      ensures ids == if p.id in old(ids) then old(ids) else old(ids) + [p.id]
      ensures |ids| == if p.id in old(ids) then |old(ids)| else |old(ids)| + 1
    {
      if p.id !in ids {
        ids := ids + [p.id];
      }
      plugins := plugins[p.id := p];
    }

    /** `get` */
    method Get(id: string) returns (r: Option<Plugin>)
      requires Valid()
      ensures r.Some? <==> id in ids
      ensures r.Some? ==> r.value == plugins[id] && r.value.id == id
    {
      if id in plugins {
        r := Some(plugins[id]);
      } else {
        r := None;
      }
    }

    /** `has` */
    method Has(id: string) returns (r: bool)
      requires Valid()
      ensures r <==> id in ids
    {
      r := id in plugins;
    }

    /** `getAll`: the plugins in insertion order of their ids. */
    method GetAll() returns (r: seq<Plugin>)
      requires Valid()
      ensures |r| == |ids|
      ensures forall i :: 0 <= i < |ids| ==> r[i] == plugins[ids[i]] && r[i].id == ids[i]
    {
      r := [];
      var i := 0;
      while i < |ids|
        invariant 0 <= i <= |ids|
        invariant |r| == i
        invariant forall j :: 0 <= j < i ==> r[j] == plugins[ids[j]]
      {
        r := r + [plugins[ids[i]]];
        i := i + 1;
      }
    }

    /** `size` */
    method Size() returns (n: nat)
      requires Valid()
      ensures n == |ids| == |plugins|
    {
      SizeMatches();
      n := |ids|;
    }

    lemma SizeMatches()
      requires Valid()
      ensures |plugins| == |ids|
    {
      KeysCount(ids, plugins.Keys);
    }

    /** `list`: one summary per registered plugin, in the same order as `getAll`. */
    method List() returns (r: seq<Summary>)
      requires Valid()
      ensures |r| == |ids|
      ensures forall i :: 0 <= i < |ids| ==> r[i] == SummaryOf(plugins[ids[i]]) && r[i].id == ids[i]
    {
      var all := GetAll();
      r := [];
      var i := 0;
      while i < |all|
        invariant 0 <= i <= |all|
        invariant |r| == i
        invariant forall j :: 0 <= j < i ==> r[j] == SummaryOf(all[j])
      {
        r := r + [SummaryOf(all[i])];
        i := i + 1;
      }
    }

    /** The registered plugins in insertion order of their ids. */
    ghost function InOrder(): (ps: seq<Plugin>)
      reads this
      requires forall i :: 0 <= i < |ids| ==> ids[i] in plugins
      ensures |ps| == |ids|
      ensures forall i :: 0 <= i < |ids| ==> ps[i] == plugins[ids[i]]
    {
      var ks, m := ids, plugins;
      seq(|ks|, i requires 0 <= i < |ks| => m[ks[i]])
    }

    /** `clear` */
    method Clear()
      modifies this
      ensures Valid() && ids == [] && plugins == map[]
    {
      ids := [];
      plugins := map[];
    }

    /** Plugins listed in id order are pairwise distinct objects. */
    lemma DistinctPlugins(ps: seq<Plugin>)
      requires Valid()
      requires |ps| == |ids| && forall i :: 0 <= i < |ids| ==> ps[i].id == ids[i]
      ensures forall j, k :: 0 <= j < k < |ps| ==> ps[j] != ps[k]
    {
      forall j, k | 0 <= j < k < |ps| ensures ps[j] != ps[k] {
        assert ps[j].id == ids[j] && ps[k].id == ids[k];
      }
    }

    /** The registry stays valid when each of its plugins, listed in id
        order, is still valid. */
    lemma StillValid(ps: seq<Plugin>)
      requires Distinct(ids)
      requires forall k :: k in plugins <==> k in ids
      requires forall k :: k in plugins ==> plugins[k].id == k
      requires |ps| == |ids| && forall i :: 0 <= i < |ids| ==> ps[i] == plugins[ids[i]]
      requires forall j :: 0 <= j < |ps| ==> ps[j].Valid()
      ensures Valid()
    {
      forall k | k in plugins ensures plugins[k].Valid() {
        var j :| 0 <= j < |ids| && ids[j] == k;
        assert plugins[k] == ps[j];
      }
    }

    /** `cleanup`: cleans every plugin in order, then empties the registry.
        A throwing plugin cleanup aborts the loop: the plugins after it are
        not cleaned and the registry is not emptied. */
    method Cleanup() returns (r: Outcome)
      requires Valid()
      modifies this, plugins.Values
      ensures Valid()
      ensures var ps := old(InOrder());
        var n := FirstFailingCleanup(ps);
        (r.Pass? <==> n == |ps|)
        && (r.Pass? ==> ids == [] && plugins == map[])
        && (r.Fail? ==> ids == old(ids) && plugins == old(plugins) && r == ps[n].hooks.onCleanup)
        && (forall i :: 0 <= i < n ==> !ps[i].initialized)
        && (forall i :: n <= i < |ps| ==> ps[i].initialized == old(ps[i].initialized))
    {
      var ps := GetAll();
      DistinctPlugins(ps);
      assert forall p :: p in ps ==> p in plugins.Values;
      r := CleanupEach(ps);
      if r.Fail? {
        StillValid(ps);
        return;
      }
      Clear();
    }
  }

  /** The loop of `cleanup`: awaits each plugin's cleanup in order and stops
      at the first one that throws. */
  method CleanupEach(ps: seq<Plugin>) returns (r: Outcome)
    requires forall j, k :: 0 <= j < k < |ps| ==> ps[j] != ps[k]
    requires forall j :: 0 <= j < |ps| ==> ps[j].Valid()
    modifies set p | p in ps
    ensures forall j :: 0 <= j < |ps| ==> ps[j].Valid()
    ensures var n := FirstFailingCleanup(ps);
      (r.Pass? <==> n == |ps|)
      && (r.Fail? ==> r == ps[n].hooks.onCleanup)
      && (forall j :: 0 <= j < n ==> !ps[j].initialized)
      && (forall j :: n <= j < |ps| ==> ps[j].initialized == old(ps[j].initialized))
  {
    ghost var n := FirstFailingCleanup(ps);
    var i := 0;
    while i < |ps|
      invariant 0 <= i <= n
      invariant forall j :: 0 <= j < i ==> !ps[j].initialized
      invariant forall j :: i <= j < |ps| ==> ps[j].initialized == old(ps[j].initialized)
      invariant forall j :: 0 <= j < |ps| ==> ps[j].Valid()
    {
      var c := ps[i].Cleanup();
      if c.Fail? {
        return c;
      }
      i := i + 1;
    }
    r := Pass;
  }

  /** A duplicate-free list of keys has as many elements as the key set. */
  lemma {:induction false} KeysCount(ids: seq<string>, keys: set<string>)
    requires Distinct(ids)
    requires forall k :: k in keys <==> k in ids
    ensures |keys| == |ids|
  {
    if ids != [] {
      var last := ids[|ids| - 1];
      var init := ids[..|ids| - 1];
      assert Distinct(init);
      assert forall k :: k in keys - {last} <==> k in init by {
        forall k ensures k in keys - {last} <==> k in init {
          if k in init {
            var j :| 0 <= j < |init| && init[j] == k;
            assert ids[j] == k;
          }
          if k in ids && k != last {
            var j :| 0 <= j < |ids| && ids[j] == k;
            assert j < |ids| - 1;
            assert init[j] == k;
          }
        }
      }
      KeysCount(init, keys - {last});
    }
  }
}
