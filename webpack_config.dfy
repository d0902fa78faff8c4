/** The configuration builder: the phase machine of `build()` over one mutable configuration record,
    and the pure rules inside it (src/builder/WebpackConfig.js). */
module ConfigBuilder {
  import opened Wrappers
  import opened Js
  import MixFacade

  // ---------------------------------------------------------------------------------------------
  // The configuration record
  // ---------------------------------------------------------------------------------------------

  /** The entry section: bundle name to its ordered source paths. */
  type Entry = map<string, seq<string>>

  /** `output.chunkFilename`: the resolver closure `buildOutput` installs, or a template string a
      subscriber put in its place. */
  datatype ChunkFilenameOption = MixResolver | Template(pattern: string)

  datatype Output = Output(path: string, filename: string, chunkFilename: ChunkFilenameOption, publicPath: string)

  /** The configuration document. `rules` is `module.rules`; `rest` holds every other top-level key
      (the chunk section among them), which only the merge step and subscribers touch. */
  datatype Config = Config(
    entry: Entry,
    output: Output,
    devServer: Option<map<string, Value>>,
    rules: seq<Value>,
    plugins: seq<Value>,
    rest: map<string, Value>)

  // ---------------------------------------------------------------------------------------------
  // The chunk filename resolver (the `chunkFilename` closure of `buildOutput`)
  // ---------------------------------------------------------------------------------------------

  /** One compile target of the `js` component; `normalizedOutputPath` is what its output `File`
      reports. */
  datatype CompileTarget = CompileTarget(normalizedOutputPath: string)

  /** The registered `js` component, as far as the resolver reads it. */
  datatype JsComponent = JsComponent(toCompile: seq<CompileTarget>)

  const FlatChunkFilename: string := "[name].js"

  /** The chunk name is truthy and starts with `/`. */
  predicate IsAbsoluteChunkName(chunkName: Option<string>) {
    chunkName.Some? && chunkName.value != "" && StartsWith(chunkName.value, "/")
  }

  /** The resolver, evaluated per chunk against `Mix.components.get('js')` at that moment. Reading
      `toCompile[0].output` of a component without targets throws a TypeError: `Failure`. */
  function ChunkFilename(chunkName: Option<string>, js: Option<JsComponent>): (r: Result<string, string>)
    ensures IsAbsoluteChunkName(chunkName) || js.None? ==> r == Success(FlatChunkFilename)
    ensures !IsAbsoluteChunkName(chunkName) && js.Some? && js.value.toCompile != [] ==>
              r == Success(js.value.toCompile[0].normalizedOutputPath + "/" + FlatChunkFilename)
    ensures r.Failure? <==> !IsAbsoluteChunkName(chunkName) && js.Some? && js.value.toCompile == []
  {
    if js.Some? && !IsAbsoluteChunkName(chunkName) then
      if js.value.toCompile == [] then Failure("TypeError: toCompile[0] is undefined")
      else Success(js.value.toCompile[0].normalizedOutputPath + "/" + FlatChunkFilename)
    else
      Success(FlatChunkFilename)
  }

  /** Whatever the resolver returns keeps the `[name].js` placeholder as its last path segment,
      and the result depends on the chunk name only through whether the name is absolute. */
  lemma ChunkFilenameKeepsPlaceholder(chunkName: Option<string>, other: Option<string>, js: Option<JsComponent>)
    requires IsAbsoluteChunkName(chunkName) == IsAbsoluteChunkName(other)
    ensures ChunkFilename(chunkName, js) == ChunkFilename(other, js)
    ensures ChunkFilename(chunkName, js).Success? ==>
              var f := ChunkFilename(chunkName, js).value;
              f == FlatChunkFilename || EndsWith(f, "/" + FlatChunkFilename)
  {
    if js.Some? && !IsAbsoluteChunkName(chunkName) && js.value.toCompile != [] {
      var f := js.value.toCompile[0].normalizedOutputPath + "/" + FlatChunkFilename;
      assert f[|f| - |"/" + FlatChunkFilename|..] == "/" + FlatChunkFilename;
    }
  }

  // ---------------------------------------------------------------------------------------------
  // Hot module replacement
  // ---------------------------------------------------------------------------------------------

  /** `Config.hmrOptions`. */
  datatype HmrOptions = HmrOptions(host: string, port: string)

  /** The dev-server URL: `https` exactly when `--https` is among the arguments. */
  function HmrUrl(argv: seq<string>, options: HmrOptions): (url: string)
    ensures StartsWith(url, "https://") <==> "--https" in argv
    ensures "--https" !in argv ==> StartsWith(url, "http://")
    ensures EndsWith(url, "://" + options.host + ":" + options.port + "/")
    ensures |url| == (if "--https" in argv then 5 else 4) + |"://" + options.host + ":" + options.port + "/"|
  {
    var scheme := if "--https" in argv then "https" else "http";
    var url := scheme + "://" + options.host + ":" + options.port + "/";
    assert url[4] == (if "--https" in argv then 's' else ':');
    assert url[..|scheme| + 3] == scheme + "://";
    assert url[|url| - |"://" + options.host + ":" + options.port + "/"|..] == "://" + options.host + ":" + options.port + "/";
    url
  }

  /** The name under which the model records the request-URL middleware. */
  const UrlRewriteMiddleware: string := "onBeforeSetupMiddleware"

  /** The dev-server block `configureHMR` writes before the existing `devServer` keys. */
  function HmrDevServerDefaults(options: HmrOptions, url: string): (d: map<string, Value>)
    ensures d.Keys == {"host", "port", "client", "public", "liveReload", "dev", UrlRewriteMiddleware}
    ensures d["host"] == Str(options.host) && d["port"] == Str(options.port)
    ensures d["client"] == Obj(map["host" := d["host"], "port" := d["port"]])
    ensures d["public"] == Str(url) && !Truthy(d["liveReload"])
  {
    map[
      "host" := Str(options.host),
      "port" := Str(options.port),
      "client" := Obj(map["host" := Str(options.host), "port" := Str(options.port)]),
      "public" := Str(url),
      "liveReload" := Bool(false),
      "dev" := Obj(map["headers" := Obj(map[
        "Access-Control-Allow-Origin" := Str("*"),
        "Access-Control-Allow-Methods" := Str("GET, HEAD, OPTIONS"),
        "Access-Control-Allow-Headers" := Str("X-Requested-With, Content-Type, Authorization")])]),
      UrlRewriteMiddleware := Func(UrlRewriteMiddleware)
    ]
  }

  /** What the build reads from the orchestrator and the process: the session flag
      `bundlingJavaScript`, the global `Config` (for `isUsing('hmr')`), the invocation arguments,
      `Config.hmrOptions` and `path.resolve(Config.publicPath)`. */
  datatype Env = Env(
    bundlingJavaScript: bool,
    config: MixFacade.ConfigMap,
    argv: seq<string>,
    hmrOptions: HmrOptions,
    resolvedPublicPath: string)

  /** `configureHMR`: nothing when `hmr` is off; otherwise the public path becomes the dev-server
      URL and the dev-server block is the defaults overridden by the keys already present. */
  function ConfigureHmr(c: Config, env: Env): (r: Config)
    ensures !MixFacade.IsUsing(env.config, "hmr") ==> r == c
    ensures MixFacade.IsUsing(env.config, "hmr") ==>
              && r.output == c.output.(publicPath := HmrUrl(env.argv, env.hmrOptions))
              && r.entry == c.entry && r.rules == c.rules && r.plugins == c.plugins && r.rest == c.rest
              && r.devServer.Some?
    ensures MixFacade.IsUsing(env.config, "hmr") ==>
              var defaults := HmrDevServerDefaults(env.hmrOptions, HmrUrl(env.argv, env.hmrOptions));
              var existing := c.devServer.GetOr(map[]);
              && r.devServer.value.Keys == defaults.Keys + existing.Keys
              && (forall k :: k in existing ==> r.devServer.value[k] == existing[k])
              && (forall k :: k in defaults && k !in existing ==> r.devServer.value[k] == defaults[k])
  {
    if !MixFacade.IsUsing(env.config, "hmr") then c
    else
      var url := HmrUrl(env.argv, env.hmrOptions);
      c.(output := c.output.(publicPath := url),
         devServer := Some(HmrDevServerDefaults(env.hmrOptions, url) + c.devServer.GetOr(map[])))
  }

  /** The middleware's `req.url.replace(/^\/\//, '/')`: a leading `//` becomes `/`. */
  function RewriteUrl(url: string): (r: string)
    ensures StartsWith(url, "//") ==> r == url[1..]
    ensures !StartsWith(url, "//") ==> r == url
  {
    if StartsWith(url, "//") then "/" + url[2..] else url
  }

  /** The rewrite leaves a leading `//` behind exactly when the URL started with `///`, so it
      is not idempotent. */
  lemma RewriteUrlNotIdempotent(url: string)
    ensures StartsWith(RewriteUrl(url), "//") <==> StartsWith(url, "///")
    ensures RewriteUrl("///x") == "//x" && RewriteUrl(RewriteUrl("///x")) == "/x"
  {
    if StartsWith(url, "///") {
      assert url[..2] == url[..3][..2];
    }
    if StartsWith(url, "//") {
      assert RewriteUrl(url) == url[1..];
      if |url| >= 3 {
        assert url[1..][..2] == url[1..3];
      }
      if StartsWith(url, "///") {
        assert url[..2] == "//";
      }
    }
    assert StartsWith("///x", "//");
    assert RewriteUrl("///x") == "//x";
    assert StartsWith("//x", "//");
  }

  // ---------------------------------------------------------------------------------------------
  // Rules and plugins
  // ---------------------------------------------------------------------------------------------

  /** `module.rules = module.rules.concat(webpackRules())`. */
  function AppendRules(c: Config, catalogue: seq<Value>): (r: Config)
    ensures r == c.(rules := r.rules)
    ensures |r.rules| == |c.rules| + |catalogue|
    ensures r.rules[..|c.rules|] == c.rules && r.rules[|c.rules|..] == catalogue
  {
    c.(rules := c.rules + catalogue)
  }

  /** `plugins = plugins.concat(webpackPlugins())`. */
  function AppendPlugins(c: Config, catalogue: seq<Value>): (r: Config)
    ensures r == c.(plugins := r.plugins)
    ensures |r.plugins| == |c.plugins| + |catalogue|
    ensures r.plugins[..|c.plugins|] == c.plugins && r.plugins[|c.plugins|..] == catalogue
  {
    c.(plugins := c.plugins + catalogue)
  }

  // ---------------------------------------------------------------------------------------------
  // Collaborators and subscribers
  // ---------------------------------------------------------------------------------------------

  /** The collaborators whose internals this model leaves out, given as values and total functions.
      `W` is the outside state that subscribers may change and `chunks.config()` reads. */
  datatype Collaborators<!W> = Collaborators(
    defaultConfig: Config,              // webpackDefaultConfig()
    defaultBundle: string,              // the bundle Entry.addDefault() seeds ...
    defaultSources: seq<string>,        // ... and its sources
    rules: seq<Value>,                  // webpackRules()
    plugins: seq<Value>,                // webpackPlugins()
    chunksConfig: W -> Value,           // this.chunks.config()
    merge: (Config, Value) -> Config)   // MergeWebpackConfig

  /** The dispatcher's subscribers, one oracle per payload type, keyed by event name. Firing runs
      every subscriber of the event and either yields the (possibly mutated) payload and outside
      state, or fails with the first subscriber failure. */
  datatype Subscribers<!W> = Subscribers(
    onEntry: (string, Entry, W) -> Result<(Entry, W), string>,
    onList: (string, seq<Value>, W) -> Result<(seq<Value>, W), string>,
    onConfig: (string, Config, W) -> Result<(Config, W), string>)

  const LoadingEntry: string := "loading-entry"
  const LoadingRules: string := "loading-rules"
  const LoadingPlugins: string := "loading-plugins"
  const ConfigReady: string := "configReady"
  const ConfigReadyForUser: string := "configReadyForUser"

  /** The entry `buildEntry` hands to `loading-entry`: a new `Entry`, seeded with the default
      bundle unless the session already bundles JavaScript. */
  function InitialEntry<W>(env: Env, co: Collaborators<W>): (e: Entry)
    ensures co.defaultBundle in e <==> !env.bundlingJavaScript
    ensures env.bundlingJavaScript ==> e == map[]
    ensures !env.bundlingJavaScript ==> e == map[co.defaultBundle := co.defaultSources]
  {
    var entry: Entry := map[];
    if env.bundlingJavaScript then entry else entry[co.defaultBundle := co.defaultSources]
  }

  /** The output section `buildOutput` writes. */
  function MixOutput(env: Env): (o: Output)
    ensures o.filename == FlatChunkFilename && o.chunkFilename == MixResolver && o.publicPath == "/"
    ensures o.path == env.resolvedPublicPath
  {
    Output(env.resolvedPublicPath, "[name].js", MixResolver, "/")
  }

  // ---------------------------------------------------------------------------------------------
  // The phase machine
  // ---------------------------------------------------------------------------------------------

  /** The steps of `build()`, each a method or a statement of the source. */
  datatype Phase =
    | EntryPhase              // buildEntry
    | OutputPhase             // buildOutput
    | HmrPhase                // configureHMR
    | RulesPhase              // buildRules
    | PluginsPhase            // buildPlugins
    | ChunksPhase             // buildChunks
    | ConfigReadyPhase        // dispatch('configReady')
    | ConfigReadyForUserPhase // dispatch('configReadyForUser')

  /** The event a phase dispatches, if any. */
  function EventOf(p: Phase): (e: Option<string>)
    ensures e.Some? <==> p in {EntryPhase, RulesPhase, PluginsPhase, ConfigReadyPhase, ConfigReadyForUserPhase}
  {
    match p
    case EntryPhase => Some(LoadingEntry)
    case RulesPhase => Some(LoadingRules)
    case PluginsPhase => Some(LoadingPlugins)
    case ConfigReadyPhase => Some(ConfigReady)
    case ConfigReadyForUserPhase => Some(ConfigReadyForUser)
    case _ => None
  }

  /** Each event name belongs to one step kind, so a trace of events names its steps. */
  lemma EventOfIsInjective(p: Phase, q: Phase)
    requires EventOf(p).Some? && EventOf(p) == EventOf(q)
    ensures p == q
  {
  }

  /** The order in which `build()` runs its steps. */
  const FullBuild: seq<Phase> := [EntryPhase, OutputPhase, HmrPhase, RulesPhase, PluginsPhase,
                                  ChunksPhase, ConfigReadyPhase, ChunksPhase, ConfigReadyForUserPhase, ChunksPhase]

  function EventsOf(p: Phase): seq<string> {
    match EventOf(p)
    case Some(e) => [e]
    case None => []
  }

  /** The events dispatched by a run of steps, in order. */
  function Events(steps: seq<Phase>): (es: seq<string>)
    ensures |es| <= |steps|
  {
    if steps == [] then [] else EventsOf(steps[0]) + Events(steps[1..])
  }

  /** The state the steps change: the configuration record and the outside state. */
  datatype State<W> = State(config: Config, world: W)

  /** One step. With the collaborators total, only a step that dispatches can fail, and it fails
      exactly when firing its event fails; every payload is a plain value, so `dispatch` forwards
      it unchanged, under the step's own event name. */
  function Exec<W>(p: Phase, st: State<W>, env: Env, co: Collaborators<W>, subs: Subscribers<W>): (r: Result<State<W>, string>)
    ensures EventOf(p).None? ==> r.Success?
    ensures p == EntryPhase ==>
              var f := subs.onEntry(EventOf(p).value, InitialEntry(env, co), st.world);
              && (r.Failure? <==> f.Failure?) && (r.Failure? ==> r.error == f.error)
              && (r.Success? ==> r.value == State(st.config.(entry := f.value.0), f.value.1))
    ensures p == RulesPhase ==>
              var f := subs.onList(EventOf(p).value, st.config.rules + co.rules, st.world);
              && (r.Failure? <==> f.Failure?) && (r.Failure? ==> r.error == f.error)
              && (r.Success? ==> r.value == State(st.config.(rules := f.value.0), f.value.1))
    ensures p == PluginsPhase ==>
              var f := subs.onList(EventOf(p).value, st.config.plugins + co.plugins, st.world);
              && (r.Failure? <==> f.Failure?) && (r.Failure? ==> r.error == f.error)
              && (r.Success? ==> r.value == State(st.config.(plugins := f.value.0), f.value.1))
    ensures p == ConfigReadyPhase || p == ConfigReadyForUserPhase ==>
              var f := subs.onConfig(EventOf(p).value, st.config, st.world);
              && (r.Failure? <==> f.Failure?) && (r.Failure? ==> r.error == f.error)
              && (r.Success? ==> r.value == State(f.value.0, f.value.1))
  {
    match p
    case EntryPhase =>
      (match MixFacade.Dispatch(LoadingEntry, MixFacade.Plain(InitialEntry(env, co)), st.world, subs.onEntry)
       case Failure(e) => Failure(e)
       case Success((entry, w)) => Success(State(st.config.(entry := entry), w)))
    case OutputPhase => Success(st.(config := st.config.(output := MixOutput(env))))
    case HmrPhase => Success(st.(config := ConfigureHmr(st.config, env)))
    case RulesPhase =>
      var c := AppendRules(st.config, co.rules);
      (match MixFacade.Dispatch(LoadingRules, MixFacade.Plain(c.rules), st.world, subs.onList)
       case Failure(e) => Failure(e)
       case Success((rules, w)) => Success(State(c.(rules := rules), w)))
    case PluginsPhase =>
      var c := AppendPlugins(st.config, co.plugins);
      (match MixFacade.Dispatch(LoadingPlugins, MixFacade.Plain(c.plugins), st.world, subs.onList)
       case Failure(e) => Failure(e)
       case Success((plugins, w)) => Success(State(c.(plugins := plugins), w)))
    case ChunksPhase => Success(st.(config := co.merge(st.config, co.chunksConfig(st.world))))
    case ConfigReadyPhase =>
      (match MixFacade.Dispatch(ConfigReady, MixFacade.Plain(st.config), st.world, subs.onConfig)
       case Failure(e) => Failure(e)
       case Success((c, w)) => Success(State(c, w)))
    case ConfigReadyForUserPhase =>
      (match MixFacade.Dispatch(ConfigReadyForUser, MixFacade.Plain(st.config), st.world, subs.onConfig)
       case Failure(e) => Failure(e)
       case Success((c, w)) => Success(State(c, w)))
  }

  /** The steps that ran and how the run ended. */
  datatype Run<W> = Run(trace: seq<Phase>, result: Result<State<W>, string>)

  /** Runs steps in order and stops at the first failure: there is no try/catch around any await. */
  function RunSteps<W>(steps: seq<Phase>, st: State<W>, env: Env, co: Collaborators<W>, subs: Subscribers<W>): (r: Run<W>)
    ensures |r.trace| <= |steps|
    decreases |steps|
  {
    if steps == [] then Run([], Success(st))
    else match Exec(steps[0], st, env, co, subs)
      case Failure(e) => Run([steps[0]], Failure(e))
      case Success(st') =>
        var rest := RunSteps(steps[1..], st', env, co, subs);
        Run([steps[0]] + rest.trace, rest.result)
  }

  /** Running `a` and then `b` is running `a + b`: a failure in `a` ends the run there. */
  lemma {:induction false} RunAppend<W>(a: seq<Phase>, b: seq<Phase>, st: State<W>, env: Env, co: Collaborators<W>, subs: Subscribers<W>)
    ensures var ra := RunSteps(a, st, env, co, subs);
      RunSteps(a + b, st, env, co, subs)
        == if ra.result.Failure? then ra
           else var rb := RunSteps(b, ra.result.value, env, co, subs); Run(ra.trace + rb.trace, rb.result)
  {
    if a == [] {
      assert a + b == b;
    } else {
      assert (a + b)[0] == a[0] && (a + b)[1..] == a[1..] + b;
      match Exec(a[0], st, env, co, subs)
      case Failure(_) =>
      case Success(st') =>
        RunAppend(a[1..], b, st', env, co, subs);
    }
  }

  /** Fail-fast: the steps that ran are a prefix of the steps asked for, and a successful run ran
      all of them. A failed run ends with a step that dispatches; the steps
      before it succeeded, and that step failed from the state they left, with the run's error.
      Nothing after the failed step runs. */
  lemma {:induction false} RunIsFailFast<W>(steps: seq<Phase>, st: State<W>, env: Env, co: Collaborators<W>, subs: Subscribers<W>)
    ensures var r := RunSteps(steps, st, env, co, subs);
      && |r.trace| <= |steps| && r.trace == steps[..|r.trace|]
      && (r.result.Success? ==> r.trace == steps)
      && (r.result.Failure? ==> r.trace != [] && EventOf(r.trace[|r.trace| - 1]).Some?)
      && (r.result.Failure? ==>
            var k := |r.trace| - 1;
            var before := RunSteps(steps[..k], st, env, co, subs).result;
            before.Success? && Exec(steps[k], before.value, env, co, subs) == Failure(r.result.error))
  {
    if steps != [] {
      match Exec(steps[0], st, env, co, subs)
      case Failure(e) =>
        assert steps[..0] == [] && steps[..1] == [steps[0]];
        assert RunSteps(steps, st, env, co, subs) == Run([steps[0]], Failure(e));
      case Success(st') =>
        RunIsFailFast(steps[1..], st', env, co, subs);
        var rest := RunSteps(steps[1..], st', env, co, subs);
        var r := RunSteps(steps, st, env, co, subs);
        assert r.trace == [steps[0]] + rest.trace;
        if rest.result.Failure? {
          var k := |r.trace| - 1;
          assert r.trace[k] == rest.trace[k - 1];
          assert steps[..k][0] == steps[0] && steps[..k][1..] == steps[1..][..k - 1];
          assert steps[1..][k - 1] == steps[k];
        }
    }
  }

  /** The events of consecutive runs of steps are the events of the first run followed by those of
      the second: truncating the steps truncates the events. */
  lemma {:induction false} EventsAppend(a: seq<Phase>, b: seq<Phase>)
    ensures Events(a + b) == Events(a) + Events(b)
  {
    if a != [] {
      EventsAppend(a[1..], b);
      assert (a + b)[0] == a[0] && (a + b)[1..] == a[1..] + b;
      assert EventsOf(a[0]) + (Events(a[1..]) + Events(b)) == (EventsOf(a[0]) + Events(a[1..])) + Events(b);
    } else {
      assert a + b == b;
    }
  }

  /** The events of a run, failed or not, are a prefix of the events of the steps asked for: an
      event is never fired out of order, and none is fired after a failure. */
  lemma {:induction false} RunEventsArePrefix<W>(steps: seq<Phase>, st: State<W>, env: Env, co: Collaborators<W>, subs: Subscribers<W>)
    ensures var es := Events(RunSteps(steps, st, env, co, subs).trace);
      |es| <= |Events(steps)| && es == Events(steps)[..|es|]
  {
    var trace := RunSteps(steps, st, env, co, subs).trace;
    RunIsFailFast(steps, st, env, co, subs);
    var rest := steps[|trace|..];
    assert steps == trace + rest;
    EventsAppend(trace, rest);
    var es := Events(trace);
    assert Events(steps) == es + Events(rest);
    assert Events(steps)[..|es|] == es;
  }

  /** `build()` dispatches the five events once each, in this order, and merges the chunk section
      three times: after the plugins and before `configReady`, between `configReady` and
      `configReadyForUser`, and last of all just before it returns. */
  lemma FullBuildOrder()
    ensures Events(FullBuild) == [LoadingEntry, LoadingRules, LoadingPlugins, ConfigReady, ConfigReadyForUser]
    ensures forall i :: 0 <= i < |FullBuild| ==> (FullBuild[i] == ChunksPhase <==> i in {5, 7, 9})
    ensures FullBuild[4] == PluginsPhase && FullBuild[6] == ConfigReadyPhase
    ensures FullBuild[8] == ConfigReadyForUserPhase && |FullBuild| == 10
  {
  }

  /** A successful build returns the configuration as merged with the chunk section computed from
      the outside state left by the `configReadyForUser` subscribers: the chunk section of an
      earlier phase is never what the build returns. */
  lemma BuildEndsWithFreshChunks<W>(st: State<W>, env: Env, co: Collaborators<W>, subs: Subscribers<W>)
    requires RunSteps(FullBuild, st, env, co, subs).result.Success?
    ensures FullBuild[..9][8] == ConfigReadyForUserPhase
    ensures var before := RunSteps(FullBuild[..9], st, env, co, subs).result;
      && before.Success?
      && RunSteps(FullBuild, st, env, co, subs).result.value
         == before.value.(config := co.merge(before.value.config, co.chunksConfig(before.value.world)))
  {
    assert FullBuild == FullBuild[..9] + [ChunksPhase];
    RunAppend(FullBuild[..9], [ChunksPhase], st, env, co, subs);
  }

  // ---------------------------------------------------------------------------------------------
  // The builder object
  // ---------------------------------------------------------------------------------------------

  /** `WebpackConfig`: builds `webpackConfig` step by step. The source leaves `webpackConfig` unset
      until `build()` assigns the default configuration; the model starts it at that default. `world` is the outside state the
      subscribers change and the chunk registry reads; `trace` records the steps of the current
      build. */
  class WebpackConfig<W> {
    const env: Env
    const co: Collaborators<W>
    const subs: Subscribers<W>
    var webpackConfig: Config
    var world: W
    var trace: seq<Phase>

    constructor (env: Env, co: Collaborators<W>, subs: Subscribers<W>, world: W)
      ensures this.env == env && this.co == co && this.subs == subs && this.world == world
      ensures webpackConfig == co.defaultConfig && trace == []
    {
      this.env := env;
      this.co := co;
      this.subs := subs;
      this.world := world;
      webpackConfig := co.defaultConfig;
      trace := [];
    }

    ghost function Snapshot(): State<W>
      reads this
    {
      State(webpackConfig, world)
    }

    /** The step `p` took the object from `before` to its current state, or failed with `status`. */
    ghost predicate Took(p: Phase, before: State<W>, status: Outcome<string>)
      reads this
    {
      match Exec(p, before, env, co, subs)
      case Failure(e) => status == Fail(e)
      case Success(s) => status == Pass && Snapshot() == s
    }

    method BuildEntry() returns (status: Outcome<string>)
      modifies this
      ensures trace == old(trace) + [EntryPhase]
      ensures Took(EntryPhase, old(Snapshot()), status)
    {
      var entry := InitialEntry(env, co);
      var fired := MixFacade.Dispatch(LoadingEntry, MixFacade.Plain(entry), world, subs.onEntry);
      trace := trace + [EntryPhase];
      match fired
      case Failure(e) =>
        status := Fail(e);
      case Success((e, w)) =>
        entry, world := e, w;
        webpackConfig := webpackConfig.(entry := entry);
        status := Pass;
    }

    method BuildOutput()
      modifies this
      ensures trace == old(trace) + [OutputPhase]
      ensures Took(OutputPhase, old(Snapshot()), Pass)
    {
      webpackConfig := webpackConfig.(output := MixOutput(env));
      trace := trace + [OutputPhase];
    }

    method ConfigureHmrStep()
      modifies this
      ensures trace == old(trace) + [HmrPhase]
      ensures Took(HmrPhase, old(Snapshot()), Pass)
    {
      webpackConfig := ConfigureHmr(webpackConfig, env);
      trace := trace + [HmrPhase];
    }

    method BuildRules() returns (status: Outcome<string>)
      modifies this
      ensures trace == old(trace) + [RulesPhase]
      ensures Took(RulesPhase, old(Snapshot()), status)
    {
      webpackConfig := AppendRules(webpackConfig, co.rules);
      var fired := MixFacade.Dispatch(LoadingRules, MixFacade.Plain(webpackConfig.rules), world, subs.onList);
      trace := trace + [RulesPhase];
      match fired
      case Failure(e) =>
        status := Fail(e);
      case Success((rules, w)) =>
        webpackConfig, world := webpackConfig.(rules := rules), w;
        status := Pass;
    }

    method BuildPlugins() returns (status: Outcome<string>)
      modifies this
      ensures trace == old(trace) + [PluginsPhase]
      ensures Took(PluginsPhase, old(Snapshot()), status)
    {
      webpackConfig := AppendPlugins(webpackConfig, co.plugins);
      var fired := MixFacade.Dispatch(LoadingPlugins, MixFacade.Plain(webpackConfig.plugins), world, subs.onList);
      trace := trace + [PluginsPhase];
      match fired
      case Failure(e) =>
        status := Fail(e);
      case Success((plugins, w)) =>
        webpackConfig, world := webpackConfig.(plugins := plugins), w;
        status := Pass;
    }

    method BuildChunks()
      modifies this
      ensures trace == old(trace) + [ChunksPhase]
      ensures Took(ChunksPhase, old(Snapshot()), Pass)
    {
      webpackConfig := co.merge(webpackConfig, co.chunksConfig(world));
      trace := trace + [ChunksPhase];
    }

    /** One of the two checkpoints that hand the whole record to the subscribers. */
    method Announce(p: Phase) returns (status: Outcome<string>)
      requires p == ConfigReadyPhase || p == ConfigReadyForUserPhase
      modifies this
      ensures trace == old(trace) + [p]
      ensures Took(p, old(Snapshot()), status)
    {
      var event := if p == ConfigReadyPhase then ConfigReady else ConfigReadyForUser;
      var fired := MixFacade.Dispatch(event, MixFacade.Plain(webpackConfig), world, subs.onConfig);
      trace := trace + [p];
      match fired
      case Failure(e) =>
        status := Fail(e);
      case Success((c, w)) =>
        webpackConfig, world := c, w;
        status := Pass;
    }

    /** `build()`: the steps of `FullBuild` in order, stopping at the first failed dispatch. */
    method Build() returns (r: Result<Config, string>)
      modifies this
      ensures var run := RunSteps(FullBuild, State(co.defaultConfig, old(world)), env, co, subs);
        && trace == run.trace
        && (r.Success? <==> run.result.Success?)
        && (r.Success? ==> r.value == webpackConfig && Snapshot() == run.result.value)
        && (r.Failure? ==> r.error == run.result.error)
    {
      webpackConfig := co.defaultConfig;
      trace := [];
      ghost var run := RunSteps(FullBuild, Snapshot(), env, co, subs);
      ghost var rest := FullBuild;
      ghost var before, done := Snapshot(), trace;
      var status: Outcome<string> := Pass;
      status := BuildEntry();
      StepRun(run, done, rest, before, status, env, co, subs);
      if status.Fail? { return Failure(status.error); }
      rest, before, done := rest[1..], Snapshot(), trace;
      BuildOutput();
      StepRun(run, done, rest, before, Pass, env, co, subs);
      rest, before, done := rest[1..], Snapshot(), trace;
      ConfigureHmrStep();
      StepRun(run, done, rest, before, Pass, env, co, subs);
      rest, before, done := rest[1..], Snapshot(), trace;
      status := BuildRules();
      StepRun(run, done, rest, before, status, env, co, subs);
      if status.Fail? { return Failure(status.error); }
      rest, before, done := rest[1..], Snapshot(), trace;
      status := BuildPlugins();
      StepRun(run, done, rest, before, status, env, co, subs);
      if status.Fail? { return Failure(status.error); }
      rest, before, done := rest[1..], Snapshot(), trace;
      BuildChunks();
      StepRun(run, done, rest, before, Pass, env, co, subs);
      rest, before, done := rest[1..], Snapshot(), trace;
      status := Announce(ConfigReadyPhase);
      StepRun(run, done, rest, before, status, env, co, subs);
      if status.Fail? { return Failure(status.error); }
      rest, before, done := rest[1..], Snapshot(), trace;
      BuildChunks();
      StepRun(run, done, rest, before, Pass, env, co, subs);
      rest, before, done := rest[1..], Snapshot(), trace;
      status := Announce(ConfigReadyForUserPhase);
      StepRun(run, done, rest, before, status, env, co, subs);
      if status.Fail? { return Failure(status.error); }
      rest, before, done := rest[1..], Snapshot(), trace;
      BuildChunks();
      StepRun(run, done, rest, before, Pass, env, co, subs);
      assert rest[1..] == [];
      r := Success(webpackConfig);
    }
  }

  /** `run` continues from the steps `done` with the run of `rest` from `st`. */
  ghost predicate Continues<W>(run: Run<W>, done: seq<Phase>, rest: seq<Phase>, st: State<W>,
                               env: Env, co: Collaborators<W>, subs: Subscribers<W>)
  {
    var r := RunSteps(rest, st, env, co, subs);
    run == Run(done + r.trace, r.result)
  }

  /** Taking the first remaining step keeps a run on course: it either ends the run with that
      step's failure, or continues with the remaining steps. */
  lemma StepRun<W>(run: Run<W>, done: seq<Phase>, rest: seq<Phase>, before: State<W>, status: Outcome<string>,
                   env: Env, co: Collaborators<W>, subs: Subscribers<W>)
    requires rest != [] && Continues(run, done, rest, before, env, co, subs)
    requires match Exec(rest[0], before, env, co, subs)
             case Failure(e) => status == Fail(e)
             case Success(_) => status == Pass
    ensures status.Fail? ==> run == Run(done + [rest[0]], Failure(status.error))
    ensures status.Pass? ==> Continues(run, done + [rest[0]], rest[1..], Exec(rest[0], before, env, co, subs).value, env, co, subs)
  {
    match Exec(rest[0], before, env, co, subs)
    case Failure(e) =>
    case Success(s) =>
      var r := RunSteps(rest[1..], s, env, co, subs);
      assert done + ([rest[0]] + r.trace) == (done + [rest[0]]) + r.trace;
  }
}
