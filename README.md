# A verified model of the laravel-mix configuration builder

Laravel Mix wraps webpack behind a small fluent API. This project models three pieces of it in Dafny:

1. **The configuration builder** (`src/builder/WebpackConfig.js`, module `ConfigBuilder`). `build()`
   fills one mutable configuration record in a fixed sequence:
   - the entry, the output, hot module replacement (HMR), the rules and the plugins;
   - then the chunk merge, `configReady`, the chunk merge, `configReadyForUser` and the chunk merge.

   Each dispatch is a checkpoint where subscribers may change the record and the outside state, or fail.
   - The steps are the datatype `Phase`.
   - `Exec` is one step as a pure function, and `RunSteps` folds the steps, stopping at the first failure.
   - The class `WebpackConfig` runs the same steps imperatively on its `webpackConfig` field. Its
     `Build` method is proved equal to `RunSteps(FullBuild, …)`.
   - Lemmas on `RunSteps` give the event order, the three chunk merges and the fail-fast behaviour.
   - The pure pieces are modelled as functions: the `chunkFilename` resolver, the HMR URL and
     dev-server record, and the request-URL rewrite.
2. **The orchestrator facade** (`src/Mix.js`, module `MixFacade`):
   - the constructor's initial state and the append-only task queue, in the class `Mix`;
   - the flag predicates over the argument list;
   - `sees` and `seesNpmPackage` over an existence or resolution oracle;
   - `dispatch`'s value-or-producer payload resolution.
3. **The build report** (`src/webpackPlugins/BuildOutputPlugin.js`, module `BuildOutput`):
   - the heading block and the asset order (name, then size);
   - the file-column widening rule and the tail-keeping truncation wrapper;
   - the once-only `patched` flag and what the `done` hook prints.

   The plugin, the stats data and the table are classes whose methods update their fields, as the
   source does.

Shared helpers:
- `wrappers.dfy` holds `Option`, `Result` and `Outcome`.
- `js.dfy` holds JavaScript values, truthiness, `startsWith`/`endsWith`, `repeat` and `substr`.

Collaborators whose code is not part of this model become parameters:
- `Entry`, `Chunks`, `MergeWebpackConfig`, `webpack-rules`, `webpack-plugins`,
  `webpack-default`, `Dispatcher` and `Components`;
- the global `Config`, `process.argv`, `path.resolve`, `File.exists` and `require.resolve`;
- the terminal width and the rendered table width.

In the builder these are the `Env`, `Collaborators` and `Subscribers` records. Elsewhere they are
oracle functions or plain inputs.

Two details of the `chunkFilename` resolver:
- It returns the template `[name].js`, or `<normalizedOutputPath>/[name].js`; webpack fills in
  `[name]` later.
- When a `js` component is registered with no compile targets, reading `toCompile[0].output`
  throws a TypeError. The model returns a `Failure` there rather than assuming targets exist.

## Model

| member | source | states |
|---|---|---|
| MixFacade.Mix.constructor | src/Mix.js:11-29 | a new orchestrator has no tasks, `bundlingJavaScript` false, `globalStyles` null and `extractingStyles` false |
| MixFacade.IsUsing | src/Mix.js:37-39 | true exactly when `Config[tool]` is present and truthy |
| MixFacade.IsUsingReadsOnlyItsKey | src/Mix.js:37-39 | changing any other configuration key never changes `isUsing(tool)` |
| MixFacade.InProduction | src/Mix.js:44-46 | the raw `Config.production` value, whose truthiness is `isUsing('production')` |
| MixFacade.IsWatching | src/Mix.js:51-53 | true iff some argument is exactly `--watch` or `--hot` |
| MixFacade.IsPolling | src/Mix.js:58-60 | true iff watching and some argument is `--watch-poll`; polling implies watching |
| MixFacade.PollFlagAloneIsNotPolling | src/Mix.js:51-60 | arguments that are all `--watch-poll` give neither watching nor polling |
| MixFacade.Sees | src/Mix.js:67-73 | false for every tool but `laravel`; for `laravel`, whether `./artisan` exists |
| MixFacade.SeesNpmPackage | src/Mix.js:80-88 | true iff resolution succeeds, false iff it fails in any way; never fails itself |
| MixFacade.Mix.AddTask | src/Mix.js:95-97 | the queue grows by one, the new task is last, earlier tasks are unchanged and in order |
| MixFacade.Dispatch | src/Mix.js:115-121 | a plain payload is fired exactly as given |
| MixFacade.DispatchResolvesProducerOnce | src/Mix.js:115-121 | a producer payload is called once; its value and the state after that one call are fired |
| ConfigBuilder.WebpackConfig.constructor | src/builder/WebpackConfig.js:14-16 | the builder keeps its environment, collaborators, subscribers and outside state |
| ConfigBuilder.WebpackConfig.Build | src/builder/WebpackConfig.js:21-46 | the steps that ran, the success or failure, the returned record and the final state are exactly those of the specification run of `FullBuild` from the default configuration |
| ConfigBuilder.FullBuildOrder | src/builder/WebpackConfig.js:21-46 | the five events fire once each, in the order `loading-entry`, `loading-rules`, `loading-plugins`, `configReady`, `configReadyForUser`; the chunk merge runs exactly at steps 5, 7 and 9, i.e. after plugins, between the two announcements and last |
| ConfigBuilder.RunIsFailFast | src/builder/WebpackConfig.js:21-46 | the steps that ran are a prefix of the plan; a successful run ran all of them; a failed run ended at a dispatching step that failed with the run's error from the state the earlier steps left, and nothing after it ran |
| ConfigBuilder.RunEventsArePrefix | src/builder/WebpackConfig.js:21-46 | the events of any run, failed or not, are a prefix of the plan's events |
| ConfigBuilder.RunAppend | src/builder/WebpackConfig.js:21-46 | running two step lists one after the other is running their concatenation; a failure in the first ends the run |
| ConfigBuilder.BuildEndsWithFreshChunks | src/builder/WebpackConfig.js:41-46 | a successful build returns the record merged with the chunk section computed after the `configReadyForUser` subscribers ran |
| ConfigBuilder.RunSteps | src/builder/WebpackConfig.js:21-46 | the awaited steps in order, stopping at the first failed step; never more steps run than were planned |
| ConfigBuilder.EventOf | src/builder/WebpackConfig.js:34-41 | exactly the entry, rules, plugins and two announcement steps dispatch an event |
| ConfigBuilder.EventOfIsInjective | src/builder/WebpackConfig.js:34-41 | no two step kinds dispatch the same event name |
| ConfigBuilder.Exec | src/builder/WebpackConfig.js:21-176 | with total collaborators, only dispatching steps can fail; each dispatching step fires its own event name; the entry, rules and plugins steps hand their subscribers the new entry, the appended rules or the appended plugins; the `configReady` and `configReadyForUser` steps hand them the whole record; each fails exactly when its subscribers fail, with their error, and otherwise stores what they leave |
| ConfigBuilder.InitialEntry | src/builder/WebpackConfig.js:53-57 | the default bundle is in the entry iff `bundlingJavaScript` is false, and is then its only bundle |
| ConfigBuilder.WebpackConfig.BuildEntry | src/builder/WebpackConfig.js:52-61 | the step's trace entry and its effect match `Exec`: the record's entry becomes the entry as the `loading-entry` subscribers left it |
| ConfigBuilder.MixOutput | src/builder/WebpackConfig.js:67-87 | the output's path is the resolved public path, its filename `[name].js`, its chunk filename the resolver and its public path `/` |
| ConfigBuilder.WebpackConfig.BuildOutput | src/builder/WebpackConfig.js:67-87 | the step replaces the output section and matches `Exec` |
| ConfigBuilder.ChunkFilename | src/builder/WebpackConfig.js:72-83 | `[name].js` for an absolute chunk name or without a `js` component; otherwise the first target's output path followed by `/[name].js`; failure exactly when the component has no targets |
| ConfigBuilder.ChunkFilenameKeepsPlaceholder | src/builder/WebpackConfig.js:72-83 | the result depends on the chunk name only through its absoluteness, and always ends in the `[name].js` placeholder |
| ConfigBuilder.HmrUrl | src/builder/WebpackConfig.js:94-95 | the URL is exactly `proto://host:port/`: it starts with `https://` iff `--https` is an argument, otherwise with `http://`, ends with `://host:port/`, and has no other characters |
| ConfigBuilder.HmrDevServerDefaults | src/builder/WebpackConfig.js:105-143 | the default dev-server block has exactly the keys `host`, `port`, `client`, `public`, `liveReload`, `dev` and the middleware; host and port are the HMR options, `client` repeats them, `public` is the URL and live reload is off |
| ConfigBuilder.ConfigureHmr | src/builder/WebpackConfig.js:89-146 | unchanged when hmr is off; otherwise only the public path changes in the output, other sections are kept, and the dev-server keys are the union with existing keys taking precedence over the defaults |
| ConfigBuilder.WebpackConfig.ConfigureHmrStep | src/builder/WebpackConfig.js:89-146 | the step applies `ConfigureHmr` to the record and matches `Exec` |
| ConfigBuilder.RewriteUrl | src/builder/WebpackConfig.js:138 | a URL starting with `//` loses its first character; any other URL is unchanged |
| ConfigBuilder.RewriteUrlNotIdempotent | src/builder/WebpackConfig.js:138 | the result still starts with `//` iff the URL started with `///`; `///x` becomes `//x` and then `/x` |
| ConfigBuilder.AppendRules | src/builder/WebpackConfig.js:152-154 | the old rules are an unchanged prefix, the catalogue follows, and nothing else in the record changes |
| ConfigBuilder.WebpackConfig.BuildRules | src/builder/WebpackConfig.js:151-157 | the step appends the rule catalogue, dispatches `loading-rules` with the result and matches `Exec` |
| ConfigBuilder.AppendPlugins | src/builder/WebpackConfig.js:163 | the old plugins are an unchanged prefix, the catalogue follows, and nothing else in the record changes |
| ConfigBuilder.WebpackConfig.BuildPlugins | src/builder/WebpackConfig.js:162-166 | the step appends the plugin catalogue, dispatches `loading-plugins` with the result and matches `Exec` |
| ConfigBuilder.WebpackConfig.BuildChunks | src/builder/WebpackConfig.js:171-176 | the record becomes the merge of itself and the chunk section read from the current outside state |
| ConfigBuilder.WebpackConfig.Announce | src/builder/WebpackConfig.js:34-41 | the record and outside state become what the `configReady` or `configReadyForUser` subscribers leave, or the step fails with their error |
| BuildOutput.BuildOutputPlugin.constructor | src/webpackPlugins/BuildOutputPlugin.js:20-23 | the plugin keeps its `clearConsole` option and starts unpatched |
| BuildOutput.DoneReport | src/webpackPlugins/BuildOutputPlugin.js:35-58 | silent iff the stats have errors; otherwise the console is cleared as configured, then the heading and compile time are printed, and the table only when there are assets, with sorted rows and the widened widths |
| BuildOutput.BuildOutputPlugin.Done | src/webpackPlugins/BuildOutputPlugin.js:35-58 | the report is `DoneReport`'s, and the plugin becomes patched exactly when a table is produced or it already was patched |
| BuildOutput.StatsData.constructor | src/webpackPlugins/BuildOutputPlugin.js:44-49 | the stats data holds the given assets and time |
| BuildOutput.Section | src/webpackPlugins/BuildOutputPlugin.js:79-87 | three lines joined by newlines: the text with three spaces on each side, between two all-space lines of length `|text| + 6` |
| BuildOutput.SectionIsInjective | src/webpackPlugins/BuildOutputPlugin.js:79-87 | different headings give different blocks |
| BuildOutput.BuildOutputPlugin.StatsTable | src/webpackPlugins/BuildOutputPlugin.js:96-117 | the assets are sorted, one row per sorted asset is pushed in order, the file column is widened to the terminal and the wrapper is installed |
| BuildOutput.BuildOutputPlugin.PushRows | src/webpackPlugins/BuildOutputPlugin.js:109-111 | the loop appends one row per asset, in the assets' order, after the rows already in the table |
| BuildOutput.Table.constructor | src/webpackPlugins/BuildOutputPlugin.js:99-107 | a table has the `File` and `Size` heads, file column width 35, right alignment and no rows |
| BuildOutput.Table.Push | src/webpackPlugins/BuildOutputPlugin.js:109-111 | a row is appended after the existing ones |
| BuildOutput.RowsOf | src/webpackPlugins/BuildOutputPlugin.js:109-111 | one row per asset, in the assets' order |
| BuildOutput.OrderBy | src/webpackPlugins/BuildOutputPlugin.js:124 | the result is a permutation of the assets, sorted by name ascending with ties broken by size ascending |
| BuildOutput.NameLessOrdersPrefixesFirst | src/webpackPlugins/BuildOutputPlugin.js:124 | JavaScript's string `<`, as `orderBy` compares names: a proper prefix comes first, and no string comes before its own prefix |
| BuildOutput.NameLessAtFirstDifference | src/webpackPlugins/BuildOutputPlugin.js:124 | the first character where two names differ decides their order |
| BuildOutput.AssetLeIsTotalOrder | src/webpackPlugins/BuildOutputPlugin.js:124 | the name-then-size order is reflexive, total, antisymmetric and transitive |
| BuildOutput.SortedPermutationIsUnique | src/webpackPlugins/BuildOutputPlugin.js:124 | two sorted permutations of the same assets are equal, so the order is fully determined |
| BuildOutput.OrderByIsIdempotent | src/webpackPlugins/BuildOutputPlugin.js:123-127 | sorting sorted assets changes nothing |
| BuildOutput.BuildOutputPlugin.SortAssets | src/webpackPlugins/BuildOutputPlugin.js:123-127 | `data.assets` becomes the ordered assets and the same data object is returned |
| BuildOutput.FileColIncrease | src/webpackPlugins/BuildOutputPlugin.js:157 | the increase is the smaller of `target - width` and `max - width`, with no maximum meaning Infinity |
| BuildOutput.EffectiveTarget | src/webpackPlugins/BuildOutputPlugin.js:150 | a `null` target width is replaced by the terminal width; any other target is kept |
| BuildOutput.ExtendedWidths | src/webpackPlugins/BuildOutputPlugin.js:149-165 | widths are unchanged for a target of 0 or none; otherwise column 0 grows by the increase when positive and not at all otherwise; other columns never change |
| BuildOutput.ExtendedWidthsReachTarget | src/webpackPlugins/BuildOutputPlugin.js:149-165 | the file column never shrinks, and when it grows the table reaches exactly the smaller of the target and the maximum |
| BuildOutput.BuildOutputPlugin.ExtendTableWidth | src/webpackPlugins/BuildOutputPlugin.js:149-165 | the table's width array becomes `ExtendedWidths` of its old contents |
| BuildOutput.BuildOutputPlugin.MonkeyPatchTruncate | src/webpackPlugins/BuildOutputPlugin.js:168-173 | afterwards the plugin is patched, and the wrapper is installed only when it was not patched before |
| BuildOutput.TruncateInput | src/webpackPlugins/BuildOutputPlugin.js:190-194 | a string no longer than the desired length passes unchanged; a longer one with desired length above 2 becomes `…` and its last `desiredLength - 2` characters, `desiredLength - 1` long; at desired length 2 it becomes `…` and the whole string |
| BuildOutput.Truncate | src/webpackPlugins/BuildOutputPlugin.js:190-196 | a string that fits goes to the library's truncation unchanged; a longer one, for desired lengths above 2, goes to it as `…` followed by its last `desiredLength - 2` characters |
| BuildOutput.TruncateWrappedTwiceIsOnce | src/webpackPlugins/BuildOutputPlugin.js:168-196 | for desired lengths above 2, wrapping the library function twice behaves as wrapping it once |

## Left out

- Console output: `console.log` and the chalk colours. What the hook prints is the `Report` value.
- Terminal handling: cli-table3's rendering, `readline` screen clearing and `process.stdout`. The
  terminal width is the input `columns`; clearing is the `clearedConsole` flag of the report.
- Stats formatting: `formatSize`. Rows hold the raw size.
- `calculateTableWidth` (`src/webpackPlugins/BuildOutputPlugin.js:208-212`) measures the rendered
  table, which this model does not render. The measured width is the input `tableWidth`.
- Framework wiring: `compiler.hooks.done.tap` and the yargs `$0` check for `ava`.
- The replacement of `cli-table3/src/utils.truncate` itself. Only the wrapper function and the
  `patched` flag are modelled.
- The Express middleware installation. Only the URL rewrite is modelled, and `devServer` records it
  under the key `onBeforeSetupMiddleware` as a named function value.
- `Mix.listen` and the `paths`, `manifest`, `dispatcher` and `components` fields. These are
  collaborators this model does not hold.
- `process.noDeprecation` and the `package.json` version. The version is a parameter of the heading.
- Collaborator internals. These are record fields or oracle functions: `Entry`, `Chunks.config()`,
  `MergeWebpackConfig`, `webpackRules()`, `webpackPlugins()`, `webpackDefaultConfig()`, `Dispatcher`,
  `Components`, `File.exists` and `require.resolve`.
- Subscribers change payloads in place. The model has them return the changed payload and outside state.
- Promise scheduling. Each dispatch is one sequential step, and overlapping watch-mode builds are
  not modelled.
- JavaScript numbers (floating point, NaN, Infinity arithmetic) are mathematical integers. A falsy
  NaN target width is not modelled; only `undefined`, `null` and `0` are.
- Strings are compared and measured by character, not by UTF-16 code unit.
- BuildOutput.OrderBy: lodash's stability is not stated. Sorted permutations are unique, so
  stability has nothing left to decide.
- ConfigBuilder.Exec: every collaborator is a total function, so only a dispatch can fail. In the
  source, `build()` also rejects when `webpackDefaultConfig()`, `path.resolve(Config.publicPath)`,
  reading `Config.hmrOptions`, `webpackRules()`, `webpackPlugins()`, `chunks.config()` or
  `MergeWebpackConfig` throws. The model does not capture those failures.
- ConfigBuilder.Exec: the environment and the rule and plugin catalogues are read once, before the
  build. In the source, `webpackRules()` and `webpackPlugins()` run after the `loading-entry`
  subscribers, which could change what they return.
- MixFacade.Dispatch: a producer payload cannot fail. In the source, a producer that throws makes
  `dispatch` reject.
- ConfigBuilder.Exec: the merge step may return any record, so no property of the whole build says
  that rules or plugins only grow. Appending is stated per step, for the payload handed to the
  subscribers.
