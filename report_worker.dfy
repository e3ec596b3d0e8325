/** The background worker that turns a queued job into a report: reload the
    plugins, look the pipeline up, check the output format, generate, and
    describe the file; progress is reported at fixed milestones, and a
    failure caused by shutdown is reported as a cancellation. Also the
    worker's signal handler. */
module ReportWorker {
  import opened Wrappers
  import opened Js
  import PluginLoader
  import PluginRegistry
  import PluginManager
  import Queue
  import ShutdownManager

  /** One `job.updateProgress` payload. */
  datatype Progress = Progress(percentage: int, step: string, message: string)

  const LoadingPlugin := Progress(10, "loading-plugin", "Loading pipeline plugin...")
  const ValidatingInputs := Progress(25, "validating", "Validating inputs...")
  const GeneratingReport := Progress(40, "generating", "Generating report with LLM...")
  const Finalizing := Progress(90, "finalizing", "Finalizing report...")
  const Completed := Progress(100, "completed", "Report generation completed!")

  /** What the processor does that others can observe, in order. */
  datatype Event = Reloaded | Reported(progress: Progress) | Generated

  /** The events of a run that succeeds. */
  const FullTrace: seq<Event> := [Reloaded, Reported(LoadingPlugin), Reported(ValidatingInputs),
    Reported(GeneratingReport), Generated, Reported(Finalizing), Reported(Completed)]

  /** What the outside world answers during one run: the plugins directory
      at reload time, the path `generateReport` resolves to (or its error),
      the size `fs.stat` gives (or its error), and the clock. */
  datatype Environment = Environment(
    dir: Option<seq<PluginLoader.Entry>>,
    workDir: string,
    generated: Result<string>,
    size: Result<int>,
    startMs: int,
    endMs: int,
    nowIso: string)

  const CancelledByShutdown: string := "Job cancelled due to shutdown"

  function NotFoundMessage(id: string): string {
    "Plugin not found: " + id
  }

  function InvalidFormatMessage(format: string, id: string): string {
    "Invalid output format '" + format + "' for plugin '" + id + "'"
  }

  /** The `catch` block: an error mentioning shutdown becomes a
      cancellation; any other is re-thrown as it is. */
  function Translate(msg: string): (t: string)
    ensures Contains(msg, ShutdownManager.Marker) ==> t == CancelledByShutdown
    ensures !Contains(msg, ShutdownManager.Marker) ==> t == msg
  {
    if Contains(msg, ShutdownManager.Marker) then CancelledByShutdown else msg
  }

  /** The cancellation the framework raises at a checkpoint reaches the
      queue as the worker's cancellation message. */
  lemma CheckpointCancellationTranslated()
    ensures Translate(ShutdownManager.CancelledMessage) == CancelledByShutdown
  {
    ShutdownManager.CancelledMessageHasMarker();
  }

  /** `path.basename`: what follows the last '/'. */
  function Basename(path: string): (b: string)
    ensures '/' !in b
  {
    var parts := Split(path, '/');
    SplitNoSeparator(path, '/');
    parts[|parts| - 1]
  }

  lemma BasenameOfJoin(dir: string, name: string)
    requires '/' !in name
    ensures Basename(dir + "/" + name) == name
  {
    SplitLast(dir, name, '/');
  }

  /** How the pipeline lookup ended: no plugin, or a plugin and its
      `outputFormats` (`None` when it is not an array). */
  datatype Lookup = Missing | Found(formats: Option<seq<string>>)

  function LookupIn(reg: PluginRegistry.Registry, id: string): Lookup
    reads reg, reg.plugins.Values
  {
    if id in reg.plugins then Found(reg.plugins[id].outputFormats) else Missing
  }

  /** The processor's specification: its result and the events it causes,
      given how the lookup ends. */
  function Run(found: Lookup, data: Queue.JobData, env: Environment): (Result<Queue.JobResult>, seq<Event>) {
    var t1 := [Reloaded, Reported(LoadingPlugin)];
    if found.Missing? then (Err(Translate(NotFoundMessage(data.pipelineId))), t1)
    else
      var t2 := t1 + [Reported(ValidatingInputs)];
      if found.formats.None? then (Err(Translate(ReadError(Undefined, "includes"))), t2)
      else if data.outputFormat !in found.formats.value then
        (Err(Translate(InvalidFormatMessage(data.outputFormat, data.pipelineId))), t2)
      else
        var t3 := t2 + [Reported(GeneratingReport), Generated];
        if env.generated.Err? then (Err(Translate(env.generated.msg)), t3)
        else
          var t4 := t3 + [Reported(Finalizing)];
          if env.size.Err? then (Err(Translate(env.size.msg)), t4)
          else
            var path := env.generated.value;
            (Ok(Queue.JobResult(path, Basename(path), env.size.value, env.endMs - env.startMs, env.nowIso)),
             t4 + [Reported(Completed)])
  }

  /** The percentages reported along a trace, in order. */
  function Percentages(t: seq<Event>): seq<int> {
    if t == [] then []
    else (if t[0].Reported? then [t[0].progress.percentage] else []) + Percentages(t[1..])
  }

  predicate StrictlyIncreasing(xs: seq<int>) {
    forall i, j :: 0 <= i < j < |xs| ==> xs[i] < xs[j]
  }

  lemma {:induction false} PercentagesOfPrefix(t: seq<Event>, u: seq<Event>)
    requires t <= u
    ensures Percentages(t) <= Percentages(u)
  {
    if t != [] {
      assert t[0] == u[0] && t[1..] <= u[1..];
      PercentagesOfPrefix(t[1..], u[1..]);
    }
  }

  /** Every run is a prefix of the full trace: the plugins are reloaded
      first, and the run reaches the end exactly when it succeeds. */
  lemma RunFollowsFullTrace(found: Lookup, data: Queue.JobData, env: Environment)
    ensures var (r, t) := Run(found, data, env);
      t <= FullTrace && |t| >= 2 && t[0] == Reloaded && (r.Ok? <==> t == FullTrace)
  {
  }

  /** The milestones of a successful run. */
  lemma FullPercentages()
    ensures Percentages(FullTrace) == [10, 25, 40, 90, 100]
  {
    var f := FullTrace;
    assert Percentages(f[6..]) == [100];
    assert f[5..] == [f[5]] + f[6..];
    assert Percentages(f[4..]) == [90, 100] by { assert f[4..] == [f[4]] + f[5..]; }
    assert Percentages(f[3..]) == [40, 90, 100] by { assert f[3..] == [f[3]] + f[4..]; }
    assert Percentages(f[2..]) == [25, 40, 90, 100] by { assert f[2..] == [f[2]] + f[3..]; }
    assert Percentages(f[1..]) == [10, 25, 40, 90, 100] by { assert f[1..] == [f[1]] + f[2..]; }
  }

  /** Any prefix of the milestones strictly increases. */
  lemma MilestonePrefixIncreasing(ps: seq<int>)
    requires ps <= [10, 25, 40, 90, 100]
    ensures StrictlyIncreasing(ps)
  {
    var m := [10, 25, 40, 90, 100];
    assert StrictlyIncreasing(m);
    assert forall i :: 0 <= i < |ps| ==> ps[i] == m[i];
  }

  /** The milestones are 10, 25, 40, 90, 100 in that order; a run reports a
      prefix of them, so its percentages strictly increase. */
  lemma ProgressStrictlyIncreases(found: Lookup, data: Queue.JobData, env: Environment)
    ensures var ps := Percentages(Run(found, data, env).1);
      ps <= [10, 25, 40, 90, 100] && StrictlyIncreasing(ps)
  {
    var t := Run(found, data, env).1;
    RunFollowsFullTrace(found, data, env);
    PercentagesOfPrefix(t, FullTrace);
    FullPercentages();
    MilestonePrefixIncreasing(Percentages(t));
  }

  /** A missing plugin fails before the 25% update and before generation. */
  lemma MissingPluginStopsEarly(data: Queue.JobData, env: Environment)
    ensures var (r, t) := Run(Missing, data, env);
      r == Err(Translate(NotFoundMessage(data.pipelineId)))
      && Generated !in t && Reported(ValidatingInputs) !in t
  {
  }

  /** An unsupported format fails before the 40% update and before generation. */
  lemma InvalidFormatStopsEarly(formats: seq<string>, data: Queue.JobData, env: Environment)
    requires data.outputFormat !in formats
    ensures var (r, t) := Run(Found(Some(formats)), data, env);
      r == Err(Translate(InvalidFormatMessage(data.outputFormat, data.pipelineId)))
      && Generated !in t && Reported(GeneratingReport) !in t
  {
  }

  /** A run succeeds exactly when the plugin supports the format and both
      generation and `stat` succeed; the result names the file by its
      basename and measures the run on the clock. */
  lemma SuccessfulRun(found: Lookup, data: Queue.JobData, env: Environment)
    ensures var r := Run(found, data, env).0;
      (r.Ok? <==> found.Found? && found.formats.Some? && data.outputFormat in found.formats.value
                  && env.generated.Ok? && env.size.Ok?)
      && (r.Ok? ==> r.value.outputPath == env.generated.value
                    && r.value.fileName == Basename(env.generated.value)
                    && r.value.fileSize == env.size.value
                    && r.value.duration == env.endMs - env.startMs)
  {
  }

  /** The job processor. */
  method ProcessJob(m: PluginManager.Manager, data: Queue.JobData, env: Environment)
    returns (r: Result<Queue.JobResult>, trace: seq<Event>)
    requires m.Valid()
    modifies m
    ensures m.Valid() && m.cache.Some? && fresh(m.cache.value)
    ensures m.cache.value.ids == PluginManager.LoadedIds(env.dir)
    ensures (r, trace) == Run(LookupIn(m.cache.value, data.pipelineId), data, env)
  {
    m.ReloadPlugins(env.dir, env.workDir);
    trace := [Reloaded];
    trace := trace + [Reported(LoadingPlugin)];
    var plugin := m.GetPlugin(data.pipelineId, false, env.dir, env.workDir);
    var found := if plugin.None? then Missing else Found(plugin.value.outputFormats);
    assert found == LookupIn(m.cache.value, data.pipelineId);
    r, trace := AfterLookup(found, data, env, trace);
  }

  /** The steps after the plugin lookup, from the trace so far. */
  method AfterLookup(found: Lookup, data: Queue.JobData, env: Environment, t1: seq<Event>)
    returns (r: Result<Queue.JobResult>, trace: seq<Event>)
    requires t1 == [Reloaded, Reported(LoadingPlugin)]
    ensures (r, trace) == Run(found, data, env)
  {
    trace := t1;
    var failure: Option<string> := None;
    r := Err("");
    if found.Missing? {
      failure := Some(NotFoundMessage(data.pipelineId));
    } else {
      trace := trace + [Reported(ValidatingInputs)];
      var formats := found.formats;
      if formats.None? {
        failure := Some(ReadError(Undefined, "includes"));
      } else if data.outputFormat !in formats.value {
        failure := Some(InvalidFormatMessage(data.outputFormat, data.pipelineId));
      } else {
        trace := trace + [Reported(GeneratingReport)];
        trace := trace + [Generated];
        if env.generated.Err? {
          failure := Some(env.generated.msg);
        } else {
          var outputPath := env.generated.value;
          trace := trace + [Reported(Finalizing)];
          if env.size.Err? {
            failure := Some(env.size.msg);
          } else {
            var fileName := Basename(outputPath);
            var duration := env.endMs - env.startMs;
            trace := trace + [Reported(Completed)];
            r := Ok(Queue.JobResult(outputPath, fileName, env.size.value, duration, env.nowIso));
          }
        }
      }
    }
    if failure.Some? {
      r := Err(Translate(failure.value));
    }
    assert trace == Run(found, data, env).1;
    assert r == Run(found, data, env).0;
  }

  // ---------------------------------------------------------------
  // Signals
  // ---------------------------------------------------------------

  /** What the handler does on SIGTERM or SIGINT: start closing the
      worker, or exit at once with status 1. */
  datatype SignalAction = BeginClose | ForceExit(code: int)

  /** The first signal sets the shutdown flag and starts closing; a signal
      that finds the flag already set exits immediately. */
  method OnSignal(sm: ShutdownManager.Manager) returns (a: SignalAction)
    modifies sm
    ensures sm.shutting
    ensures old(sm.shutting) <==> a == ForceExit(1)
    ensures !old(sm.shutting) <==> a == BeginClose
  {
    var shutting := sm.IsShuttingDown();
    if shutting {
      return ForceExit(1);
    }
    sm.SetShutdown(true);
    a := BeginClose;
  }

  /** The exit status once closing the worker settles. */
  function CloseExitCode(closed: bool): (code: int)
    ensures code == 0 <==> closed
  {
    if closed then 0 else 1
  }

  /** Two signals in a row: the first begins a graceful close, the second
      forces the exit. */
  method SignalTwice(sm: ShutdownManager.Manager) returns (first: SignalAction, second: SignalAction)
    requires !sm.shutting
    modifies sm
    ensures first == BeginClose && second == ForceExit(1) && sm.shutting
  {
    first := OnSignal(sm);
    second := OnSignal(sm);
  }
}
