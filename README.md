# llm-reporter, modelled in Dafny

llm-reporter turns tabular and document data into AI-written reports.
Data-source integrations are **pipeline plugins** that follow a fixed
lifecycle (initialize → process → cleanup). During `process` they load data,
transform it, compute statistics and build a **bundle**. The **report
engine** takes a plugin and one of its **specifications**. It renders the
specification's prompts against the bundle, sends each prompt to a language
model and renders the output template. It then writes an HTML, PDF, PPTX or
MDX file. A **job queue** accepts report requests. A **worker** runs each
job against a freshly loaded plugin registry and reports progress. A
process-wide **shutdown flag** makes in-flight work stop at safe points. The
web UI exposes a clean-up route for the queue. The command-line `run`
command collects inputs from `-i key=value` flags.

This project models that core, one Dafny module per source file:

- `plugin_base.dfy`: the plugin lifecycle (a class) and the input and metadata validators.
- `plugin_registry.dfy` and `plugin_loader.dfy`: the registry class and the loader's per-directory decisions.
- `specification.dfy`, `report_engine.dfy` and `report_filters.dfy`: specification validation, report generation, the prompt loop and the template filters.
- `shutdown_manager.dfy`: the shutdown flag.
- `bundle_types.dfy`, `bundle_builder.dfy` and `bundle_loader.dfy`: bundles, the builder and bundle validation.
- `statistics.dfy`: the statistics helpers.
- `http.dfy`: the retry loop.
- `parsers.dfy`: CSV batching and extension dispatch.
- `html_renderer.dfy`: HTML escaping and page wrapping.
- `pptx_exporter.dfy`: the slide layout.
- `config_manager.dfy`: the profile store.
- `plugin_manager.dfy`: the UI's registry cache.
- `queue.dfy`: the queue wrapper.
- `report_worker.dfy`: the worker.
- `clean_route.dfy`: the clean-up route.
- `cli_run.dfy`: the CLI `run` command.

Shared modules:

- `Wrappers`: Option and Result.
- `Js`: JavaScript values, truthiness, objects as ordered key/value lists, string helpers.
- `Checks`: the collect-every-error validation pattern.
- `Sorting`: the stable sorts the code relies on.

Code that updates state is modelled as classes and methods. Each method is
proved against a pure function of the old state, and lemmas prove what that
function promises. Pure code is modelled as functions and lemmas.

Some of the system's effects cannot be modelled directly. Each of the
following is a parameter of the model (the value it would produce), an
outcome datatype, or an explicit trace of calls:

- the file system;
- the language-model client;
- Nunjucks, Markdown, MDX and PDF rendering;
- the clock;
- the BullMQ store;
- dynamic `import`;
- interactive prompts.

Numbers are integers.

## Model

| member | source | states |
|---|---|---|
| PluginRegistry.FirstFailingCleanup | framework/src/plugins/plugin-registry.ts:51-56 | the index of the first plugin whose cleanup throws: every earlier one succeeds and the one there fails (or all succeed) |
| PluginRegistry.Registry.constructor | framework/src/plugins/plugin-registry.ts:6-7 | a new registry is empty |
| PluginRegistry.Registry.Register | framework/src/plugins/plugin-registry.ts:9-11 | the map gains or replaces the entry under the plugin's id; a new id is appended to insertion order, a known id keeps its place |
| PluginRegistry.Registry.Get | framework/src/plugins/plugin-registry.ts:13-15 | some plugin exactly when the id is registered, and it is the one stored under that id |
| PluginRegistry.Registry.Has | framework/src/plugins/plugin-registry.ts:17-19 | true exactly when the id is registered |
| PluginRegistry.Registry.GetAll | framework/src/plugins/plugin-registry.ts:21-23 | every registered plugin once, in insertion order |
| PluginRegistry.Registry.Size | framework/src/plugins/plugin-registry.ts:25-27 | the number of registered ids, which equals the map's size |
| PluginRegistry.Registry.SizeMatches | framework/src/plugins/plugin-registry.ts:25-27 | the map's size equals the number of ids kept in insertion order |
| PluginRegistry.KeysCount | framework/src/plugins/plugin-registry.ts:25-27 | a duplicate-free id list has as many elements as the set of its ids |
| PluginRegistry.Registry.List | framework/src/plugins/plugin-registry.ts:29-45 | one summary (id, name, version, description, inputs, output formats) per plugin, in insertion order |
| PluginRegistry.Registry.InOrder | framework/src/plugins/plugin-registry.ts:52 | the plugins in the order the map iterates them |
| PluginRegistry.Registry.Clear | framework/src/plugins/plugin-registry.ts:47-49 | the registry becomes empty |
| PluginRegistry.Registry.Cleanup | framework/src/plugins/plugin-registry.ts:51-56 | cleans up plugins in order; if all succeed the registry is emptied, otherwise the first failure is returned, the plugins before it are cleaned, those after it untouched, and the registry keeps its entries |
| PluginRegistry.CleanupEach | framework/src/plugins/plugin-registry.ts:52-54 | the sequential loop: stops at the first failing cleanup, with the earlier plugins de-initialised and the rest unchanged |
| ShutdownManager.CancelledMessageHasMarker | framework/src/utils/shutdown-manager.ts:13-17 | the cancellation message contains "shutting down", the text the worker recognises |
| ShutdownManager.Manager.constructor | framework/src/utils/shutdown-manager.ts:2 | the flag starts cleared |
| ShutdownManager.Manager.SetShutdown | framework/src/utils/shutdown-manager.ts:5-7 | the flag takes the given value |
| ShutdownManager.Manager.IsShuttingDown | framework/src/utils/shutdown-manager.ts:9-11 | returns the flag |
| ShutdownManager.Manager.CheckShutdown | framework/src/utils/shutdown-manager.ts:13-17 | passes exactly when the flag is clear, otherwise fails with "Operation cancelled - shutting down" |
| BundleBuilder.Builder.constructor | framework/src/bundles/bundle-builder.ts:4-12 | no dataset name, no samples, no stats; metadata with totalRecords 0, the creation time and source "unknown" |
| BundleBuilder.Builder.SetDatasetName | framework/src/bundles/bundle-builder.ts:14-17 | sets the name and changes nothing else |
| BundleBuilder.Builder.AddSample | framework/src/bundles/bundle-builder.ts:19-22 | appends one sample to main and changes nothing else |
| BundleBuilder.Builder.AddSamples | framework/src/bundles/bundle-builder.ts:24-27 | appends the samples in order, keeping the earlier ones as a prefix |
| BundleBuilder.Builder.SetStat | framework/src/bundles/bundle-builder.ts:29-32 | afterwards the key reads the new value and every other key reads as before |
| BundleBuilder.Builder.SetStats | framework/src/bundles/bundle-builder.ts:34-37 | object spread: incoming keys win, other keys keep their old values |
| BundleBuilder.Builder.SetMetadata | framework/src/bundles/bundle-builder.ts:39-42 | metadata becomes the spread of the old metadata with the incoming fields |
| BundleBuilder.Builder.Build | framework/src/bundles/bundle-builder.ts:44-51 | succeeds exactly when the name is set and non-empty; fails with "Bundle must have a datasetName" otherwise, changing nothing; on success sets totalRecords to the number of samples and returns the bundle |
| BundleBuilder.BuiltBundleValid | framework/src/bundles/bundle-builder.ts:44-51 | any bundle with a non-empty name passes the bundle loader's validation with no errors |
| BundleLoader.Validate | framework/src/bundles/bundle-loader.ts:18-30 | the push-per-failed-check loop computes the validation result |
| BundleLoader.ValidIff | framework/src/bundles/bundle-loader.ts:18-30 | valid exactly when name, samples.main, stats and metadata are all truthy; errors is absent exactly when valid, and otherwise lists exactly the missing parts, one each |
| BundleLoader.LoadFromFile | framework/src/bundles/bundle-loader.ts:6-16 | returns the parsed bundle exactly when it parses and validates; otherwise the parse error or "Invalid bundle: " with the joined errors |
| Statistics.FreqCounts | framework/src/utils/statistics.ts:5-11 | the frequency map has distinct keys, maps each item present to its number of occurrences and nothing else, and its counts sum to the number of items |
| Statistics.FreqEntries | framework/src/utils/statistics.ts:5-11 | every entry's key occurs in the items and its count is that key's number of occurrences |
| Statistics.Frequency | framework/src/utils/statistics.ts:5-11 | the forEach loop builds the frequency map: first-seen key order, occurrence counts, counts summing to the input length |
| Statistics.TopN | framework/src/utils/statistics.ts:13-19 | for n >= 0, as many entries as n or the number of distinct items, whichever is smaller, with counts never increasing |
| Statistics.TopNShape | framework/src/utils/statistics.ts:13-19 | at most n entries, counts non-increasing, each item occurs in the input with its true count |
| Statistics.TopNIsTop | framework/src/utils/statistics.ts:13-19 | an item left out means n entries were returned and the last of them counts at least as often as that item |
| Statistics.Median | framework/src/utils/statistics.ts:26-33 | 0 for no numbers; otherwise a value between the smallest and the largest of them, for an even count as well |
| Statistics.MedianOdd | framework/src/utils/statistics.ts:26-33 | for an odd number of values the median is one of them, with at most half the values below it and at most half above |
| Statistics.MedianEmpty | framework/src/utils/statistics.ts:27 | the median of no numbers is 0 |
| Statistics.GroupBy | framework/src/utils/statistics.ts:35-45 | distinct keys; each key maps to exactly the items with that key, in input order, and keys with no items are absent |
| Statistics.FilterMembers | framework/src/utils/statistics.ts:35-45 | a group holds exactly the items whose key is the group's |
| Statistics.FilterCounts | framework/src/utils/statistics.ts:35-45 | a group is no longer than the input, and is all of it when every item has that key |
| Statistics.CountBy | framework/src/utils/statistics.ts:47-56 | distinct keys; each key maps to the number of items with that key; the counts sum to the input length |
| Js.NumericLiteralForms | framework/src/plugins/plugin-base.ts:389-393 | `Number` accepts exponents, hexadecimal and binary literals, a signed Infinity and a leading point, so such number inputs pass validation |
| Js.NonNumericLiterals | framework/src/plugins/plugin-base.ts:389-393 | a dangling exponent, a signed hexadecimal literal, a lone point and trailing letters are not numbers, so such inputs fail validation |
| Js.NumericStringTrims | framework/src/plugins/plugin-base.ts:389-393 | surrounding white space, Unicode spaces included, is ignored, and a blank string counts as a number |
| PluginBase.SpecKeys | framework/src/plugins/plugin-base.ts:229 | the report types of the specification map, one per entry, in order |
| Js.ArrayNumbers | framework/src/reports/report-engine.ts:460 | the coercion of an array reads its string form: [5] gives 5, ["-7"] gives -7 and [] gives 0 |
| Js.LongArrayIsZero | framework/src/reports/report-engine.ts:460 | an array of two numbers reads as text with a comma, which is not a number, so it coerces to 0 |
| PluginBase.FindSpec | framework/src/plugins/plugin-base.ts:229 | an entry exactly when the report type is a key of the map, and then it is that key's configuration |
| PluginBase.FindSpecEntry | framework/src/plugins/plugin-base.ts:229 | in a specification map, where each report type is a key once, looking up an entry's report type finds that entry's configuration |
| PluginBase.FieldChecksPass | framework/src/plugins/plugin-base.ts:373-395 | one field's three checks (required, enum option, number) pass exactly when the field is acceptable |
| PluginBase.InputChecksPass | framework/src/plugins/plugin-base.ts:373-395 | the checks of all fields pass exactly when every field is acceptable |
| PluginBase.InputsValidIff | framework/src/plugins/plugin-base.ts:397-400 | inputs are valid exactly when every field is acceptable, and errors is absent exactly when valid |
| PluginBase.MissingRequiredReported | framework/src/plugins/plugin-base.ts:374-376 | a required field with a falsy value is reported as "Missing required field: <name>" |
| PluginBase.ValidateInputs | framework/src/plugins/plugin-base.ts:369-401 | the loop over the declared fields computes the collected validation result |
| PluginBase.FieldErrors | framework/src/plugins/plugin-base.ts:374-394 | one field's messages: missing when required and falsy, invalid when an enum value is not an option, not a number when a number field is not numeric, in that order |
| PluginBase.VersionOkIff | framework/src/plugins/plugin-base.ts:444 | the version check accepts exactly strings beginning digits.digits.digits |
| PluginBase.VersionOkSound | framework/src/plugins/plugin-base.ts:444 | an accepted version begins with three dot-separated digit runs |
| PluginBase.VersionOkComplete | framework/src/plugins/plugin-base.ts:444 | every string that begins with three dot-separated digit runs is accepted |
| PluginBase.VersionOkFrom | framework/src/plugins/plugin-base.ts:444 | any version beginning with given non-empty digit runs joined by dots is accepted |
| PluginBase.MetadataErrorsIff | framework/src/plugins/plugin-base.ts:437-467 | metadata validation reports no error exactly when id, version, name, description, inputs and output formats are all acceptable, and every failed check's message is reported |
| PluginBase.DefaultStatisticsShape | framework/src/plugins/plugin-base.ts:321-331 | the default statistics are count, firstRecord, lastRecord in that order: the length, the first record and the last one (undefined when empty) |
| PluginBase.DefaultBundleShape | framework/src/plugins/plugin-base.ts:342-360 | the default bundle is named after the plugin id, holds the data and statistics, and its metadata gives the record count, the time, dataPath or apiEndpoint or "unknown" as source, and the plugin id and version |
| PluginBase.Pipeline | framework/src/plugins/plugin-base.ts:135-181 | a run succeeds exactly when all six steps ran in order; a failed run ran a prefix of them and then onError |
| PluginBase.InvalidInputsStopBeforeLoad | framework/src/plugins/plugin-base.ts:140-145 | inputs the validator (the base one or a plugin's override) rejects fail the run before loadData; with the base validator the message is "Input validation failed: " and the joined errors |
| PluginBase.StepFailureRethrown | framework/src/plugins/plugin-base.ts:135-181 | when beforeProcess, the validator or loadData throws, onError runs right after it, no later step runs, and the same error is rethrown |
| PluginBase.LaterStepFailureRethrown | framework/src/plugins/plugin-base.ts:135-181 | when transformData, computeStatistics, buildBundle or afterProcess throws, onError runs right after it, no later step runs, and the same error is rethrown |
| PluginBase.DefaultHooksKeepRecordCount | framework/src/plugins/plugin-base.ts:305-360 | with the default hooks a successful run bundles the loaded records unchanged, and totalRecords and count both equal their number |
| PluginBase.Plugin.constructor | framework/src/plugins/plugin-base.ts:89-91 | a new plugin keeps its declared metadata and hooks, is not initialised, has no context and a start time of 0 |
| PluginBase.Plugin.Initialize | framework/src/plugins/plugin-base.ts:102-118 | a second call fails with "Plugin <id> already initialized" and changes nothing; otherwise it stores the context, fails on invalid metadata, and becomes initialised exactly when onInit succeeds |
| PluginBase.Plugin.Process | framework/src/plugins/plugin-base.ts:125-182 | an uninitialised plugin fails with "Plugin <id> not initialized. Call initialize() first." and calls nothing; otherwise it records the start time and follows the pipeline |
| PluginBase.Plugin.Cleanup | framework/src/plugins/plugin-base.ts:188-193 | returns onCleanup's outcome; the plugin is no longer initialised unless that hook threw |
| PluginLoader.MissingOf | framework/src/plugins/plugin-loader.ts:208-210 | exactly the required property names that are absent or undefined |
| PluginLoader.MissingOfAppend | framework/src/plugins/plugin-loader.ts:208-210 | filtering distributes over concatenation of the required list |
| PluginLoader.MissingPropertiesAgree | framework/src/plugins/plugin-loader.ts:193-213 | "none" exactly when no required property is missing; an object that passes the duck-type check can miss only description, inputs, outputFormats, getPromptsDir or getTemplatesDir |
| PluginLoader.NoneIsNotAList | framework/src/plugins/plugin-loader.ts:212 | a non-empty list of missing names never joins to "none" |
| PluginLoader.PluginDirs | framework/src/plugins/plugin-loader.ts:41-47 | exactly the entries that are directories other than node_modules, dist and hidden ones, in order |
| PluginLoader.ScanAppend | framework/src/plugins/plugin-loader.ts:57-71 | loading two lists of directories one after the other is loading their concatenation |
| PluginLoader.ScanGrows | framework/src/plugins/plugin-loader.ts:57-71 | loading only appends ids, and never registers an id twice |
| PluginLoader.SkippedDirNoEffect | framework/src/plugins/plugin-loader.ts:96-117 | a directory that is skipped (no index file, no class, not a plugin, duplicate or failed) leaves the registry as it was |
| PluginLoader.DuplicateSkippedBeforeInit | framework/src/plugins/plugin-loader.ts:114-118 | a valid plugin whose id is already registered is skipped as a duplicate, before it is initialised |
| PluginLoader.LoadOne | framework/src/plugins/plugin-loader.ts:77-190 | one directory's decision, taken against the registry before it: only a registered decision appends its id, with a new initialised plugin; existing entries are untouched |
| PluginLoader.LoadFromDirectory | framework/src/plugins/plugin-loader.ts:28-74 | a missing directory changes nothing; otherwise every plugin directory is decided in order against the ids registered so far, and the registry ends with the scanned ids |
| PluginLoader.LoadDirs | framework/src/plugins/plugin-loader.ts:57-71 | the sequential loop over the plugin directories: the registry ends with the scanned ids and the log holds each directory's decision, taken against the ids registered before it |
| PluginLoader.Instantiate | framework/src/plugins/plugin-loader.ts:100-121 | a fresh plugin with the instance's id, initialised exactly when `initialize` succeeds, with the outcome metadata validation and onInit give |
| PluginLoader.LoadInstance | framework/src/plugins/plugin-loader.ts:94-126 | an exported class is checked by duck typing, then for a duplicate id, then initialised and registered; only a registered instance appends its id, with a fresh initialised plugin |
| PluginLoader.DecisionsAt | framework/src/plugins/plugin-loader.ts:57-71 | one decision per directory, the i-th taken against the ids the first i directories registered |
| PluginLoader.DecideAddsFreshIds | framework/src/plugins/plugin-loader.ts:114-125 | a directory is only ever registered under an id not yet in the registry |
| Checks.FromErrors | framework/src/reports/specification.ts:71-74 | valid exactly when no error was collected; the error list is present exactly when invalid, and is then the collected list |
| Specification.FirstNullish | framework/src/reports/specification.ts:34-41 | the first array element that is null or undefined, where reading its first field throws |
| Specification.CheckItem | framework/src/reports/specification.ts:35-40 | one input's or prompt's checks push exactly the messages of the failed ones, in order |
| Specification.CheckItems | framework/src/reports/specification.ts:34-57 | the forEach throws the TypeError of the first null or undefined element; otherwise it collects every failed item check, tagged with the index |
| Specification.CheckSection | framework/src/reports/specification.ts:31-58 | a missing or non-array section yields its one "Missing or invalid ... array" message, an array yields its items' messages |
| Specification.CheckTemplate | framework/src/reports/specification.ts:60-69 | a missing or non-object template yields one message; otherwise its file and type checks |
| Specification.ValidateSpecification | framework/src/reports/specification.ts:25-75 | the whole push sequence computes the validation result |
| Specification.ItemsChecksPass | framework/src/reports/specification.ts:34-57 | all item checks pass exactly when every item has a non-empty path and name (inputs) or file, name and inputs array (prompts) |
| Specification.SectionPass | framework/src/reports/specification.ts:31-58 | a section passes exactly when it is an array of acceptable items |
| Specification.TemplatePass | framework/src/reports/specification.ts:60-69 | the template passes exactly when it is an object with a non-empty file and type "njk" or "mdx" |
| Specification.ValidIffWellFormed | framework/src/reports/specification.ts:25-75 | a specification is valid exactly when inputs, prompts and template are all well formed, and errors is absent exactly when valid |
| Specification.InputsNotArrayOneError | framework/src/reports/specification.ts:31-32 | a non-array inputs field gives exactly one inputs message, followed by the prompt and template messages |
| Specification.InputPathErrorTagged | framework/src/reports/specification.ts:35-37 | an input without a usable path is reported as "Input <index>: missing or invalid path" |
| Specification.PromptInputsErrorTagged | framework/src/reports/specification.ts:54-56 | a prompt without an inputs array is reported as "Prompt <index>: missing or invalid inputs array" |
| ReportEngine.Poll | framework/src/reports/report-engine.ts:46 | a checkpoint: the flag is set if it was already or if a signal arrived just before; the check passes exactly when the flag is clear, and otherwise fails with the cancellation message |
| ReportEngine.PromptContextShape | framework/src/reports/report-engine.ts:276-279 | the prompt context has exactly the prompt's input names as keys, each with the context's value or an empty array when that is null or undefined |
| ReportEngine.PromptContextKeys | framework/src/reports/report-engine.ts:276-279 | the prompt context holds each input name as a key exactly once, and no other key |
| ReportEngine.PromptContextLookup | framework/src/reports/report-engine.ts:276-279 | each input name reads the context's value, or an empty array when that is null or undefined |
| ReportEngine.BuildPromptContext | framework/src/reports/report-engine.ts:276-279 | the loop builds that prompt context |
| ReportEngine.SetLines | framework/src/reports/report-engine.ts:343-345 | one `set ... default([])` line per prompt input, in order |
| ReportEngine.PreambleLines | framework/src/reports/report-engine.ts:343-347 | the safety preamble splits back into exactly one line per input |
| ReportEngine.RunPrompt | framework/src/reports/report-engine.ts:264-370 | reads the prompt, renders it (MDX or Markdown with the preamble) and calls the model, ending in that prompt's effect |
| ReportEngine.Effects | framework/src/reports/report-engine.ts:258-371 | one effect per prompt, in order |
| ReportEngine.StopIndex | framework/src/reports/report-engine.ts:258-371 | the first prompt at which the loop stops: every earlier one ran with no shutdown and no shutdown answer, and at the stop a shutdown was seen or the model answered with a shutdown error |
| ReportEngine.ProcessPrompts | framework/src/reports/report-engine.ts:250-374 | the results written and the outcome are those of the prompt loop; a check that finds shutdown sets the flag and fails with the cancellation message |
| ReportEngine.WrittenAnswer | framework/src/reports/report-engine.ts:271-369 | a prompt that ran and is not overwritten by a later one of the same name keeps its answer ("" on a missing file, rendering error or model error) |
| ReportEngine.WrittenAbsent | framework/src/reports/report-engine.ts:255 | a name no prompt ran under is absent from the results |
| ReportEngine.EveryPromptAnswered | framework/src/reports/report-engine.ts:258-373 | with no shutdown, every prompt's answer appears under its name and the loop succeeds |
| ReportEngine.ShutdownAnswerBreaks | framework/src/reports/report-engine.ts:363-367 | a shutdown error from the model ends the loop successfully, and prompts after it are never answered |
| ReportEngine.ShuttingDownRunsNoPrompt | framework/src/reports/report-engine.ts:259-260 | with shutdown already set, no prompt runs and the loop fails with the cancellation message |
| ReportEngine.RenderContextLookup | framework/src/reports/report-engine.ts:88-101 | the render context reads the combined metadata under "metadata", an LLM result where one exists, and the bundle's field otherwise |
| ReportEngine.RenderMetadataLookup | framework/src/reports/report-engine.ts:91-100 | the bundle's own metadata wins; otherwise reportTitle is "<name> Report", author "Report Framework", and pluginId and generatedAt are the plugin's id and the time |
| ReportEngine.MetaDefaultsLookup | framework/src/reports/report-engine.ts:91-100 | the engine supplies the plugin id and the time, and the title and author defaults for keys the bundle leaves out |
| ReportEngine.RenderTemplate | framework/src/reports/report-engine.ts:379-428 | a missing file fails with "Template file not found: <path>"; otherwise the rendering's result, with a Nunjucks template's error prefixed by "Template rendering failed: " |
| ReportEngine.ExtensionChoice | framework/src/reports/report-engine.ts:113-223 | html and pdf keep their own extension; mdx gives html for an MDX template and md otherwise; md output is exactly the unconverted text |
| ReportEngine.Timestamp | framework/src/reports/report-engine.ts:232 | the ISO time with every ':' and '.' replaced, of the same length |
| ReportEngine.FileNameDot | framework/src/reports/report-engine.ts:231-233 | the file name's only dot is the one before the extension |
| ReportEngine.PptxFileName | framework/src/reports/report-engine.ts:206-209 | the PPTX file name ends in ".pptx" |
| ReportEngine.FormatCheck | framework/src/reports/report-engine.ts:49-53 | passes exactly when the plugin lists the format |
| ReportEngine.Content | framework/src/reports/report-engine.ts:104-223 | the text written is the rendered template itself for Markdown output and the converter's result on it otherwise; a template error is passed on |
| ReportEngine.Publish | framework/src/reports/report-engine.ts:87-244 | a failing template fails with its message; a slide deck succeeds exactly when the exporter does, and any other format exactly when the converted content is written to the output path; a success returns that path |
| ReportEngine.Generation | framework/src/reports/report-engine.ts:28-245 | shutdown, an unsupported format and an unknown report type each fail before the plugin runs, with their messages; success means no checkpoint saw a signal, the checks passed, the plugin processed the inputs, and the result is the output path |
| ReportEngine.WrittenDistinct | framework/src/reports/report-engine.ts:255-373 | the prompt results hold each name at most once |
| ReportEngine.AnswersReachTemplate | framework/src/reports/report-engine.ts:76-101 | without a shutdown, the template's context reads every prompt's answer, or "" for a failed prompt, under the prompt's name |
| ReportEngine.NoPromptsRenderBundle | framework/src/reports/report-engine.ts:78-101 | a specification without prompts runs no prompt, and the template's context reads the bundle's fields |
| ReportEngine.CancelledBeforePublishing | framework/src/reports/report-engine.ts:73-85 | a signal after processing, before the first prompt or before rendering fails the report with the cancellation message |
| ReportEngine.FinishReport | framework/src/reports/report-engine.ts:71-244 | the steps after processing compute that part of the generation; the flag ends up set only for a cancellation |
| ReportEngine.RenderAndWrite | framework/src/reports/report-engine.ts:87-244 | renders, converts or exports, and writes exactly as Publish says |
| ReportEngine.GenerateReport | framework/src/reports/report-engine.ts:28-245 | returns what Generation gives on the state before the call (an omitted output directory defaults to `<cwd>/reports`); the plugin is left untouched when a check fails before processing |
| ReportFilters.Safe | framework/src/reports/report-engine.ts:435 | null and undefined give "", a string itself |
| ReportFilters.TruncateShape | framework/src/reports/report-engine.ts:436-439 | text that fits is kept; longer text keeps its first l characters plus the ellipsis, never more than l + 1 |
| ReportFilters.SliceFilter | framework/src/reports/report-engine.ts:452-455 | a non-array gives []; an array gives one of its contiguous slices |
| ReportFilters.SliceWithin | framework/src/reports/report-engine.ts:452-455 | in-range bounds give exactly that slice, and no bounds the whole array |
| ReportFilters.Coerce | framework/src/reports/report-engine.ts:460 | each entry keeps its key and turns its value into a number, 0 when that is falsy |
| ReportFilters.TopOfSorted | framework/src/reports/report-engine.ts:461-462 | sorting descending and cutting at the limit gives at most limit entries, in non-increasing order, drawn from the input, a prefix of the sorted list |
| ReportFilters.TopEntriesShape | framework/src/reports/report-engine.ts:456-463 | at most limit entries in non-increasing order, all from the input's entries; a falsy input gives [] |
| ReportFilters.ObjectEntriesCoerced | framework/src/reports/report-engine.ts:458-460 | an object's entries are its own keys in order, with coerced values |
| ReportFilters.Capitalize | framework/src/reports/report-engine.ts:468 | the first character upper-cased, the rest unchanged |
| ReportFilters.CapitalizeAll | framework/src/reports/report-engine.ts:468 | every word capitalised, in order |
| ReportFilters.CapitalizedJoin | framework/src/reports/report-engine.ts:467-469 | splitting on spaces, capitalising and joining upper-cases exactly the characters that start a word |
| ReportFilters.TitleAt | framework/src/reports/report-engine.ts:464-470 | the title case keeps the length; each character is lower-cased, and upper-cased when it starts a word |
| ReportFilters.TitleIdempotent | framework/src/reports/report-engine.ts:464-470 | applying title twice is the same as once |
| Http.Init | framework/src/utils/http.ts:30-42 | the request uses the given method (GET by default) and carries the body exactly when it is non-empty and the method is neither GET nor HEAD |
| Http.InitHeaders | framework/src/utils/http.ts:33-36 | the caller's headers override the default "User-Agent: Report-Framework/1.0", which is present otherwise |
| Http.Backoff | framework/src/utils/http.ts:77 | every wait lies between 1000 and 10000 ms |
| Http.Backoffs | framework/src/utils/http.ts:75-79 | one wait per failed attempt before the last, the a-th being that attempt's backoff |
| Http.BackoffSchedule | framework/src/utils/http.ts:75-77 | attempts 0 to 3 wait 1000·2^a ms, later ones 10000 ms, and waits never shrink |
| Http.Pow2Grows | framework/src/utils/http.ts:77 | powers of two grow with the exponent |
| Http.FetchWithRetry | framework/src/utils/http.ts:5-88 | succeeds exactly when some attempt within the retry budget returns a response below 500 or ok, and then returns the first such response after waiting each earlier backoff; otherwise fails with "Failed after <retries> attempts: <last error>" after retries−1 waits |
| Parsers.Batcher.constructor | framework/src/utils/parsers.ts:90 | a new transform has an empty buffer and has emitted and consumed nothing |
| Parsers.Batcher.Transform | framework/src/utils/parsers.ts:103-115 | each record is appended to the buffer; a full buffer is emitted as one batch and reset |
| Parsers.Batcher.Flush | framework/src/utils/parsers.ts:116-125 | a non-empty remainder is emitted, after which the emitted batches concatenate to exactly the records consumed |
| Parsers.ReadBatched | framework/src/utils/parsers.ts:84-128 | the batches concatenate to the records in order, none is empty, all but the last are full, and there are ⌈n / size⌉ of them |
| Parsers.CountBatches | framework/src/utils/parsers.ts:84-128 | the number of batches is the full ones plus one for a non-empty remainder |
| Parsers.Extension | framework/src/utils/parsers.ts:287 | the lower-cased text after the last dot, which contains no dot |
| Parsers.ExtensionAfterDot | framework/src/utils/parsers.ts:287 | a name ending ".ext" has extension ext, lower-cased |
| Parsers.ExtensionWithoutDot | framework/src/utils/parsers.ts:287 | a name without a dot is its own extension, lower-cased |
| Parsers.ReadFormat | framework/src/utils/parsers.ts:286-298 | csv, xml and json are read by their parsers; anything else fails with "Unsupported file format: <ext>" |
| Parsers.StreamFormat | framework/src/utils/parsers.ts:307-321 | only csv and json stream; anything else fails with "Streaming not supported for format: <ext>" |
| Parsers.StreamableIsReadable | framework/src/utils/parsers.ts:286-321 | every streamable file is readable with the same parser, and XML never streams |
| HtmlRenderer.EscapeChar | framework/src/renderers/html-renderer.ts:533-540 | characters other than & < > " ' are kept as they are |
| HtmlRenderer.EscapeHtml | framework/src/renderers/html-renderer.ts:532-541 | the result is no shorter and contains none of < > " ' |
| HtmlRenderer.EscapePlain | framework/src/renderers/html-renderer.ts:532-541 | text without special characters is unchanged |
| HtmlRenderer.UnescapeEscape | framework/src/renderers/html-renderer.ts:532-541 | decoding the five entities recovers the original text exactly, so escaping loses nothing |
| HtmlRenderer.UnescapeEntity | framework/src/renderers/html-renderer.ts:533-539 | each entity decodes back to its character |
| HtmlRenderer.PdfCss | framework/src/renderers/html-renderer.ts:481-501 | the print rules are present exactly for PDF output and state the page size, A4 by default |
| HtmlRenderer.Css | framework/src/renderers/html-renderer.ts:503 | a non-empty custom stylesheet wins; otherwise the built-in styles plus the print rules when styles are included (the default), and none otherwise |
| HtmlRenderer.StyleElement | framework/src/renderers/html-renderer.ts:520 | no style element exactly when there is no CSS; otherwise the CSS wrapped in style tags |
| HtmlRenderer.AfterTitle | framework/src/renderers/html-renderer.ts:512-525 | the part of the page after the title ends with the closing html tag |
| HtmlRenderer.WrapIsPage | framework/src/renderers/html-renderer.ts:466-527 | the trimmed page starts with the doctype and ends with the closing html tag |
| HtmlRenderer.TitleShown | framework/src/renderers/html-renderer.ts:511 | the page's title element holds the escaped title, "Report" by default |
| PptxExporter.Deck.constructor | framework/src/exporters/pptx-exporter.ts:17 | a new presentation has no slides and empty properties |
| PptxExporter.Deck.SetProperties | framework/src/exporters/pptx-exporter.ts:20-23 | sets author, company, subject and title and leaves the slides alone |
| PptxExporter.Deck.AddSlide | framework/src/exporters/pptx-exporter.ts:26 | appends one slide and leaves the properties alone |
| PptxExporter.OrText | framework/src/exporters/pptx-exporter.ts:20-23 | a non-empty option wins, otherwise the fallback |
| PptxExporter.TileLabel | framework/src/exporters/pptx-exporter.ts:88 | the label has the key's length |
| PptxExporter.TileLabelShape | framework/src/exporters/pptx-exporter.ts:88 | each underscore becomes a space and every other character is upper-cased, so no underscore or lower-case ASCII letter remains |
| PptxExporter.TileEntries | framework/src/exporters/pptx-exporter.ts:61 | the first six statistics, or all when there are fewer |
| PptxExporter.TilesAt | framework/src/exporters/pptx-exporter.ts:62-97 | tile k contributes its rectangle, value and label, three items in that order, at position 3k |
| PptxExporter.TilesLength | framework/src/exporters/pptx-exporter.ts:62-97 | n tiles make 3n items |
| PptxExporter.MetricsTiles | framework/src/exporters/pptx-exporter.ts:52-97 | the metrics slide is the heading followed by three items per shown statistic, tile k holding statistic k |
| PptxExporter.TilePositionsDistinct | framework/src/exporters/pptx-exporter.ts:63-66 | on the three-column grid no two tiles share a position |
| PptxExporter.DataRow | framework/src/exporters/pptx-exporter.ts:121-125 | a row gives one cell per header, holding the value's text or "" when falsy; reading a null row throws |
| PptxExporter.DataRows | framework/src/exporters/pptx-exporter.ts:121-126 | one row of cells per sample, failing when any sample cannot be read |
| PptxExporter.HeaderRow | framework/src/exporters/pptx-exporter.ts:116-119 | one bold cell per header, in order |
| PptxExporter.TableShape | framework/src/exporters/pptx-exporter.ts:110-127 | the table is the header row followed by one row for each of the first ten samples, every row as wide as the header |
| PptxExporter.ExportToPptx | framework/src/exporters/pptx-exporter.ts:12-142 | the properties take the options or their defaults; the deck is the title slide, the metrics slide and, when there are samples, the table slide; the result is the output path unless building the table throws |
| PptxExporter.MetricItems | framework/src/exporters/pptx-exporter.ts:51-97 | the metrics slide: the heading, then a value and a label tile for each of the first six statistics |
| ConfigManager.Loaded | ui/lib/config-manager.ts:56-67 | a missing or unreadable file gives the defaults; otherwise each stored field overrides its default |
| ConfigManager.LoadSaved | ui/lib/config-manager.ts:56-76 | a saved configuration loads back unchanged |
| ConfigManager.FindIndex | ui/lib/config-manager.ts:82-84 | the index of the first profile with that name, or −1 when there is none |
| ConfigManager.WithProfileShape | ui/lib/config-manager.ts:78-92 | a new name is appended; a known name is replaced in place with every other profile unchanged; afterwards the name finds the profile |
| ConfigManager.WithProfileDefault | ui/lib/config-manager.ts:94-97 | the profile becomes the default exactly when it is now the only one |
| ConfigManager.WithoutProfileShape | ui/lib/config-manager.ts:102-119 | removing an unknown name fails; otherwise that one profile is spliced out, and a removed default passes to the first remaining profile or "" |
| ConfigManager.AddThenRemove | ui/lib/config-manager.ts:78-119 | adding a new profile and removing it again restores the profile list |
| ConfigManager.DefaultIsFound | ui/lib/config-manager.ts:146-156 | after setting a default, asking for the default profile returns the profile of that name |
| ConfigManager.ProfileOfShape | ui/lib/config-manager.ts:126-136 | no name and no default gives nothing; a profile found carries the asked-for name, else the default name |
| ConfigManager.LlmDefaults | ui/lib/config-manager.ts:164-172 | temperature, maxTokens and topP default to 0.7, 4096 and 1; the other settings are copied |
| ConfigManager.Manager.constructor | ui/lib/config-manager.ts:35-38 | the manager starts with the file's contents |
| ConfigManager.Manager.Load | ui/lib/config-manager.ts:56-67 | returns the loaded configuration |
| ConfigManager.Manager.Save | ui/lib/config-manager.ts:69-76 | the file holds the configuration |
| ConfigManager.Manager.AddProfile | ui/lib/config-manager.ts:78-100 | the file holds the loaded configuration with the profile added or replaced |
| ConfigManager.Manager.RemoveProfile | ui/lib/config-manager.ts:102-119 | fails with "Profile '<name>' not found", leaving the file alone, exactly when no profile has the name; otherwise saves the configuration without it |
| ConfigManager.Manager.GetProfile | ui/lib/config-manager.ts:126-136 | the named profile or, without a name, the default one; nothing when neither is set or found |
| ConfigManager.Manager.GetDefaultProfile | ui/lib/config-manager.ts:138-144 | the profile named as the default, nothing when there is no default name |
| ConfigManager.Manager.SetDefaultProfile | ui/lib/config-manager.ts:146-156 | fails with "Profile '<name>' not found" exactly when no profile has that name; otherwise only the default name changes |
| ConfigManager.Manager.GetLlmConfig | ui/lib/config-manager.ts:158-173 | nothing exactly when no profile is found; otherwise that profile's settings with the defaults filled in |
| ConfigManager.Manager.SetPluginsDir | ui/lib/config-manager.ts:185-189 | only the plugins directory changes, to the given one |
| ConfigManager.Manager.SetOutputDir | ui/lib/config-manager.ts:191-195 | only the output directory changes, to the given one |
| ConfigManager.Manager.GetDefaultProfileName | ui/lib/config-manager.ts:197-200 | the default name, or nothing when it is empty |
| Queue.StateNamed | ui/lib/queue/queue.ts:161-167 | the state whose name is given, and none when no state has that name |
| Queue.PriorityOf | ui/lib/queue/queue.ts:33 | the given priority unless it is absent or 0, in which case 5; never 0 |
| Queue.NormalizeProgress | ui/lib/queue/queue.ts:58-59 | a number p becomes `{percentage: p}`; anything else is passed through; the result is never a number |
| Queue.NormalizeIdempotent | ui/lib/queue/queue.ts:58-59 | normalising progress twice is the same as once |
| Queue.Infos | ui/lib/queue/queue.ts:95-115 | one description per job, in order |
| Queue.DescribeJobs | ui/lib/queue/queue.ts:95-115 | the loop describing the gathered jobs yields one description per job, in order |
| Queue.FindJob | ui/lib/queue/queue.ts:45-49 | some job exactly when one has the id, and then a job of the queue with that id |
| Queue.OfState | ui/lib/queue/queue.ts:75-91 | exactly the jobs in that state |
| Queue.NewestFirst | ui/lib/queue/queue.ts:117-118 | the descriptions reordered, newest creation time first: a permutation in non-increasing createdAt order |
| Queue.AllJobsShape | ui/lib/queue/queue.ts:71-119 | the listing is newest first and holds exactly the descriptions of the waiting, active, completed and failed jobs the status asks for; delayed jobs never appear |
| Queue.SelectedMembers | ui/lib/queue/queue.ts:74-92 | a job is gathered exactly when it is not delayed and its state is the one asked for, or no state is asked for |
| Queue.UnreadStatusListsNothing | ui/lib/queue/queue.ts:74-92 | a status other than the four read lists nothing |
| Queue.CountsCover | ui/lib/queue/queue.ts:143-150 | the five counts add up to the number of jobs, so the reported total is the queue's size |
| Queue.ExpiredIdsMembers | ui/lib/queue/queue.ts:164-171 | an id is expired exactly when some job in the state, older than the cutoff, has it |
| Queue.CleanIds | ui/lib/queue/queue.ts:164-171 | a prefix of the expired ids, at most limit of them when the limit is positive, and all of them when they fit or the limit is 0 |
| Queue.CleanIdsExpired | ui/lib/queue/queue.ts:164-171 | every cleaned id belongs to a job in the state older than the cutoff |
| Queue.WithoutMembers | ui/lib/queue/queue.ts:129 | a job remains exactly when it was there and its id is not being removed |
| Queue.WithoutDistinct | ui/lib/queue/queue.ts:129 | removing jobs keeps the ids distinct |
| Queue.CleanRemovesOnlyExpired | ui/lib/queue/queue.ts:164-171 | cleaning never removes a job that has not expired, and every job removed had expired |
| Queue.ReportQueue.constructor | ui/lib/queue/queue.ts:6-17 | a new queue is empty |
| Queue.ReportQueue.AddReportJob | ui/lib/queue/queue.ts:25-41 | the job gets the caller's id or a generated one; a known id adds nothing; otherwise one waiting "generate-report" job with the priority (default 5), zero progress and the current time is appended |
| Queue.ReportQueue.GetJobStatus | ui/lib/queue/queue.ts:44-68 | null exactly when no job has the id; otherwise that job's description, with numeric progress normalised |
| Queue.ReportQueue.GetAllJobs | ui/lib/queue/queue.ts:71-119 | the gathered jobs' descriptions, newest first |
| Queue.ReportQueue.RemoveJob | ui/lib/queue/queue.ts:122-131 | fails with "Job not found", changing nothing, exactly when no job has the id; otherwise that job is gone and the rest remain |
| Queue.ReportQueue.GetQueueStats | ui/lib/queue/queue.ts:134-151 | the count of each state, and their total is the number of jobs |
| Queue.ReportQueue.GetDetailedJobCounts | ui/lib/queue/queue.ts:198-209 | the count of completed, failed, active, delayed and waiting jobs |
| Queue.ReportQueue.CleanOldJobs | ui/lib/queue/queue.ts:164-171 | an unknown type deletes nothing; otherwise the ids cleaned are returned and those jobs removed |
| Queue.ReportQueue.CleanCompletedJobs | ui/lib/queue/queue.ts:178-182 | removes up to 1000 completed jobs older than hoursOld hours and returns how many |
| Queue.ReportQueue.CleanFailedJobs | ui/lib/queue/queue.ts:189-193 | removes up to 500 failed jobs older than daysOld days and returns how many |
| Queue.ReportQueue.ObliterateAllJobs | ui/lib/queue/queue.ts:215-222 | fails with "Must set force=true to obliterate all jobs", changing nothing, exactly when not forced; otherwise the queue is emptied |
| PluginManager.LoadedIdsDistinct | ui/lib/plugin-manager.ts:11-32 | a fresh load never registers the same id twice |
| PluginManager.InfoOf | ui/lib/plugin-manager.ts:60-68 | a pipeline's description copies id, name, description, version, output formats and inputs, and lists its report types in order |
| PluginManager.Describe | ui/lib/plugin-manager.ts:58-68 | one description per plugin, in the order the registry lists them |
| PluginManager.InitializeRegistry | ui/lib/plugin-manager.ts:11-32 | a new registry holding exactly the plugins loaded from the plugins directory, initialised with the UI's context |
| PluginManager.Manager.constructor | ui/lib/plugin-manager.ts:9 | no registry is cached at first |
| PluginManager.Manager.GetPluginRegistry | ui/lib/plugin-manager.ts:34-39 | the cached registry when there is one; otherwise a new one is loaded and cached |
| PluginManager.Manager.ReloadPlugins | ui/lib/plugin-manager.ts:44-48 | the cache is replaced by a newly loaded registry |
| PluginManager.Manager.ClearPluginCache | ui/lib/plugin-manager.ts:110-112 | the cache is emptied |
| PluginManager.Manager.GetPipelines | ui/lib/plugin-manager.ts:54-69 | always reloads, then describes every loaded plugin once, in registration order |
| PluginManager.Manager.GetPlugin | ui/lib/plugin-manager.ts:75-84 | reloads only when forced (or nothing is cached); returns the plugin with that id exactly when it is registered |
| PluginManager.Manager.GetPluginMetadata | ui/lib/plugin-manager.ts:89-105 | fails with "Plugin not found: <id>" exactly when no plugin has the id; otherwise describes that plugin, from the cached registry |
| ReportWorker.Translate | ui/workers/report-worker.ts:113-122 | an error mentioning "shutting down" becomes "Job cancelled due to shutdown"; any other is rethrown unchanged |
| ReportWorker.CheckpointCancellationTranslated | ui/workers/report-worker.ts:113-118 | the framework's cancellation at a checkpoint reaches the queue as the worker's cancellation |
| ReportWorker.Basename | ui/workers/report-worker.ts:89 | the file name contains no '/' |
| ReportWorker.BasenameOfJoin | ui/workers/report-worker.ts:89 | the basename of "dir/name" is name |
| ReportWorker.PercentagesOfPrefix | ui/workers/report-worker.ts:29-103 | the progress reported by a prefix of a run is a prefix of the full run's |
| ReportWorker.RunFollowsFullTrace | ui/workers/report-worker.ts:25-112 | every job first reloads the plugins, then follows a prefix of the fixed sequence of steps, and completes the sequence exactly when it succeeds |
| ReportWorker.ProgressStrictlyIncreases | ui/workers/report-worker.ts:29-103 | a job reports a prefix of 10, 25, 40, 90, 100 percent, so its progress strictly increases |
| ReportWorker.FullPercentages | ui/workers/report-worker.ts:29-103 | a complete run reports 10, 25, 40, 90 and 100 percent, in that order |
| ReportWorker.MissingPluginStopsEarly | ui/workers/report-worker.ts:37-41 | an unknown pipeline fails with "Plugin not found: <id>" before the 25% update and before generation |
| ReportWorker.InvalidFormatStopsEarly | ui/workers/report-worker.ts:53-57 | an unsupported format fails with "Invalid output format '<f>' for plugin '<id>'" before the 40% update and before generation |
| ReportWorker.SuccessfulRun | ui/workers/report-worker.ts:69-112 | a job succeeds exactly when the plugin exists and lists the format and generation and stat both succeed; the result holds the path, its basename, the size and the elapsed time |
| ReportWorker.ProcessJob | ui/workers/report-worker.ts:17-123 | the processor reloads the plugins and its result and progress updates are exactly those of the specification for the freshly loaded registry |
| ReportWorker.AfterLookup | ui/workers/report-worker.ts:37-112 | the steps after the plugin lookup follow the specification of the run: the same result and the same progress updates |
| ReportWorker.OnSignal | ui/workers/report-worker.ts:149-158 | a signal when shutdown is already set forces exit 1; otherwise it sets the flag and begins closing the worker |
| ReportWorker.CloseExitCode | ui/workers/report-worker.ts:166-175 | the exit status is 0 exactly when the worker closed cleanly |
| ReportWorker.SignalTwice | ui/workers/report-worker.ts:149-158 | a first signal begins a graceful close and a second one forces exit 1 |
| CleanRoute.Default | ui/app/api/jobs/clean/route.ts:14-22 | a destructuring default applies exactly when the body field is undefined |
| CleanRoute.GraceMs | ui/app/api/jobs/clean/route.ts:29-33 | a non-zero grace is used as given; otherwise one day for completed jobs and seven days for any other type |
| CleanRoute.EmptyBodyDefaults | ui/app/api/jobs/clean/route.ts:14-34 | an empty body cleans completed jobs older than one day, at most 1000 of them |
| CleanRoute.CleanOtherTypeDefault | ui/app/api/jobs/clean/route.ts:29-33 | cleaning a type other than completed without a grace uses seven days |
| CleanRoute.ObliterateNeedsForce | ui/app/api/jobs/clean/route.ts:61-68 | obliterate proceeds exactly when force is truthy, and is refused with "Must set force=true to obliterate all jobs" otherwise |
| CleanRoute.UnknownActionRejected | ui/app/api/jobs/clean/route.ts:75-79 | any action other than the four known ones is refused with "Unknown action: <action>", and only those are |
| CleanRoute.RefusalDeletesNothing | ui/app/api/jobs/clean/route.ts:61-79 | a refused request answers 400 and leaves every job in place |
| CleanRoute.Post | ui/app/api/jobs/clean/route.ts:11-89 | the queue afterwards and the response are those the request's plan prescribes, and the queue stays well formed |
| CleanRoute.Recommendations | ui/app/api/jobs/clean/route.ts:96-104 | a completed entry appears exactly when more than 100 jobs completed and a failed entry exactly when more than 50 failed, each "Should clean (<n> jobs)", and nothing else |
| CleanRoute.Get | ui/app/api/jobs/clean/route.ts:92-114 | all five counts (completed, failed, active, delayed, waiting) are those of the queue, and a recommendation appears exactly when more than 100 jobs completed or more than 50 failed |
| CliRun.PairParts | cli/src/commands/run.ts:51-57 | in "key=value" the key is matched lower-cased and the value is everything after the first '=' |
| CliRun.FindPair | cli/src/commands/run.ts:51-54 | the first pair whose key equals the input name ignoring case, or none exactly when no pair's key does |
| CliRun.CollectedKeys | cli/src/commands/run.ts:42-89 | the collected inputs have distinct keys, each the name of a declared input |
| CliRun.CollectedValues | cli/src/commands/run.ts:43-89 | each input takes its flag value if a flag names it, otherwise the prompted answer when required, and is absent when optional and not given |
| CliRun.CollectInputs | cli/src/commands/run.ts:42-89 | the loop over the declared inputs builds exactly the collected inputs |
| CliRun.ReportTypeOf | cli/src/commands/run.ts:105-124 | a non-empty --report-type wins, else the only specification, else the prompted choice |
| CliRun.SingleSpecificationChosen | cli/src/commands/run.ts:111-113 | with one specification and no flag, that specification is used |
| CliRun.PreparedRequestShape | cli/src/commands/run.ts:96-150 | a prepared request names the pipeline and a format it lists, uses the only specification when no flag chose one, and a pipeline without specifications fails with "Pipeline '<id>' does not define any report specifications" |
| CliRun.Run | cli/src/commands/run.ts:22-194 | an unknown pipeline gives "Pipeline not found: <id>"; otherwise the request is the prepared one, or its error prefixed by "Pipeline failed: " |

## Left out

- Statistics.Median: the even-length branch is defined as the real mean of the two middle values; only that it lies between two of the numbers is proved about it. `average` is not part of this model. Both rely on floating-point division.
- Statistics.GroupBy and Statistics.CountBy: keys are kept in first-seen order. JavaScript's reordering of integer-like object keys and prototype property names are not modelled. Statistics.Frequency compares items by value, as a `Map` does for primitives. Object identity is not modelled.
- Http.FetchWithRetry: the per-attempt `AbortController` timeout and the `sleep` between attempts become the list of waits. Console logging is left out.
- Parsers: the CSV and XML parsing libraries and the streaming plumbing are not modelled, and neither are `JSONParser.readArrayStream` (overlapping asynchronous handlers) and `CSVParser.read`/`readStream`. The batch callback is modelled as a list of emitted batches, so a failing callback is not modelled.
- HtmlRenderer: the enhanced stylesheet is a parameter. `renderMarkdown` (marked) and `renderReact` are opaque renderers.
- PptxExporter.ExportToPptx: slides are assembled as values and then appended to the presentation. Samples that are arrays or strings have no header row. The locale date on the title slide is a parameter. `writeFile` is not modelled.
- ReportFilters: `json` (JSON.stringify) and the locale and floating-point filters `number_format`, `round`, `percent`, `currency` and `date_format` are not modelled.
- ReportEngine: Nunjucks rendering, the language-model client and the MDX and PDF renderers are parameters. So are file reads, writes and `mkdir`, and the clock: the source reads it separately while the plugin processes, for `metadata.generatedAt` and for the file name, and the environment carries one reading for each.
- ConfigManager: reading and writing the configuration file is a parameter. A file that fails to parse counts as a missing one. `ensureConfigDir`, `getConfigPath` and `getConfigDir` are file-system plumbing. `listProfiles`, `getPluginsDir` and `getOutputDir` only read the loaded configuration. JSON whose fields have the wrong types is not modelled.
- PluginManager: the plugins directory for each load is a parameter, and console logging is left out. `getPipelines` and `getPluginMetadata` build the same record, but with different key orders; one datatype stands for both.
- PluginLoader: the dynamic `import` with its cache-busting query is a parameter, and so is the directory listing.
- Queue: BullMQ's own behaviour is not modelled. This covers priority ordering, retries with exponential backoff, retention settings and the paused and prioritized states. The store's `clean` selects jobs by `finishedOn` or `timestamp`, and the meaning of its `limit` is taken as "at most limit, 0 meaning all". `drain`, `pause`, `resume`, `close` and `queueEvents` are pass-throughs. `job.getState` reads the modelled state. Non-numeric priorities are not modelled.
- ReportWorker.ProcessJob: `updateProgress` is recorded as a trace of percentages. A failing `updateProgress` or plugin reload is not modelled. A non-array `outputFormats` is treated as undefined.
- ReportWorker.Basename: a trailing '/' is not stripped.
- ReportWorker.OnSignal: the 5-second forced-exit timer and `process.exit` are left out. Event listeners, logging, worker concurrency and the rate limiter are left out too.
- CleanRoute.Post: `grace`, `hoursOld` and `daysOld` are integers and `limit` is a natural number, so non-numeric or negative values are not modelled. The grace in hours is reported as an exact real number, not as JavaScript's formatted text. A malformed JSON body (answered with status 500) is not modelled.
- CleanRoute.Get: the fixed `actions` help strings are left out.
- CliRun.Run: commander's option parsing is not modelled; `--input` is taken to be a list of `key=value` strings. Inquirer prompts are parameters (the answers). The language-model configuration check, the engine call and `process.exit` are left out; the result is the request handed to the engine.
- ConfigManager.Loaded: a missing file yields a fresh copy of the defaults. In the source, `load()` returns the shared `DEFAULT_CONFIG` object, whose `profiles` array a later `addProfile` would then change (ui/lib/config-manager.ts:62-65, 88-91); that aliasing is not modelled.
- BundleBuilder.Builder.Build: the result is a value. The source returns the builder's own bundle object, so later setter calls on the builder would also change an already built bundle.
- ReportFilters.Coerce: `Number(v)` is modelled for optionally signed whole-number strings only, whether given directly or as the string form of an array; fractions, exponents, hexadecimal, octal and binary literals and Infinity coerce to 0 here.
- ReportFilters.TruncateShape: lengths and slicing count Unicode code points, where `str.length` and `slice` count UTF-16 code units. Text with characters outside the Basic Multilingual Plane (emoji, for instance) is therefore cut later than in the source, and a cut inside a surrogate pair cannot be expressed.
- General: numbers are integers, upper- and lower-case mapping covers ASCII only, and `path.join` normalisation is not modelled: joining is `dir + "/" + name`.
