/** The process-wide orchestrator: session flags, the task queue, the environment predicates and event
    dispatch with payload resolution (src/Mix.js). */
module MixFacade {
  import opened Wrappers
  import opened Js

  /** The global `Config` object: a key that is absent reads as `undefined`. */
  type ConfigMap = map<string, Value>

  function Lookup(config: ConfigMap, key: string): Value {
    if key in config then config[key] else Undefined
  }

  /** `isUsing(tool)`: the truthiness of `Config[tool]`. */
  function IsUsing(config: ConfigMap, tool: string): (r: bool)
    ensures r ==> tool in config && Truthy(config[tool])
    ensures tool in config && Truthy(config[tool]) ==> r
  {
    Truthy(Lookup(config, tool))
  }

  /** `isUsing` reads `Config[tool]` and nothing else: every other key may change freely. */
  lemma IsUsingReadsOnlyItsKey(config: ConfigMap, tool: string, key: string, v: Value)
    requires key != tool
    ensures IsUsing(config[key := v], tool) == IsUsing(config, tool)
  {
  }

  /** `inProduction()`: the raw value of `Config.production`. */
  function InProduction(config: ConfigMap): (r: Value)
    ensures Truthy(r) == IsUsing(config, "production")
  {
    Lookup(config, "production")
  }

  /** `isWatching()`: the invocation arguments hold `--watch` or `--hot`. */
  function IsWatching(argv: seq<string>): (r: bool)
    ensures r <==> exists i :: 0 <= i < |argv| && (argv[i] == "--watch" || argv[i] == "--hot")
  {
    "--watch" in argv || "--hot" in argv
  }

  /** `isPolling()`: watching, and the arguments also hold `--watch-poll`. */
  function IsPolling(argv: seq<string>): (r: bool)
    ensures r ==> IsWatching(argv)
    ensures r <==> IsWatching(argv) && exists i :: 0 <= i < |argv| && argv[i] == "--watch-poll"
  {
    IsWatching(argv) && "--watch-poll" in argv
  }

  /** `--watch-poll` on its own does not switch watching, hence polling, on: `includes` matches whole
      arguments, not prefixes. */
  lemma PollFlagAloneIsNotPolling(argv: seq<string>)
    requires forall i :: 0 <= i < |argv| ==> argv[i] == "--watch-poll"
    ensures !IsWatching(argv) && !IsPolling(argv)
  {
  }

  /** `sees(tool)`: only `laravel` is known, detected by the presence of `./artisan`. The file
      system is the oracle `fileExists`. */
  function Sees(tool: string, fileExists: string -> bool): (r: bool)
    ensures tool != "laravel" ==> !r
    ensures tool == "laravel" ==> (r <==> fileExists("./artisan"))
  {
    if tool == "laravel" then fileExists("./artisan") else false
  }

  /** `seesNpmPackage(name)`: `require.resolve` is the oracle `resolve`; a resolution failure of any
      kind is caught and reported as `false`, so the predicate itself never fails. */
  function SeesNpmPackage<E>(name: string, resolve: string -> Result<string, E>): (r: bool)
    ensures r <==> resolve(name).Success?
    ensures !r <==> resolve(name).Failure?
  {
    match resolve(name)
    case Success(_) => true
    case Failure(_) => false
  }

  /** The data handed to `dispatch`: a plain value, or a zero-argument function. A function may have
      side effects, so it is modelled as a step on the outside state `S` that also yields the value. */
  datatype Payload<T, !S> = Plain(value: T) | Producer(produce: S -> (T, S))

  /** `dispatch(event, data)`: a function payload is called, once, and its result is fired;
      any other payload is fired as it is. `fire` stands for the dispatcher's `fire`. */
  function Dispatch<T, S, R>(event: string, data: Payload<T, S>, state: S, fire: (string, T, S) -> R): (r: R)
    ensures data.Plain? ==> r == fire(event, data.value, state)
  {
    match data
    case Plain(v) => fire(event, v, state)
    case Producer(produce) =>
      var (v, state') := produce(state);
      fire(event, v, state')
  }

  /** Resolving a producer before dispatching it changes nothing: `dispatch` hands the subscribers
      exactly the value the producer returned and the state after one call of it. */
  lemma DispatchResolvesProducerOnce<T, S, R>(event: string, produce: S -> (T, S), state: S, fire: (string, T, S) -> R)
    ensures Dispatch(event, Producer(produce), state, fire)
         == Dispatch(event, Plain(produce(state).0), produce(state).1, fire)
  {
  }

  /** `extractingStyles`: `false`, `true` or the file the styles are extracted to. */
  datatype Extraction = Flag(on: bool) | ToFile(path: string)

  /** The orchestrator's own state. `paths`, `manifest`, `dispatcher` and `components` are
      collaborators this model does not hold. */
  class Mix<Task> {
    var tasks: seq<Task>
    var bundlingJavaScript: bool
    var globalStyles: Option<string>
    var extractingStyles: Extraction

    constructor ()
      ensures tasks == []
      ensures !bundlingJavaScript
      ensures globalStyles == None
      ensures extractingStyles == Flag(false)
    {
      tasks := [];
      bundlingJavaScript := false;
      globalStyles := None;
      extractingStyles := Flag(false);
    }

    /** `addTask(task)`: push onto the queue; duplicates are allowed and the order is kept. */
    method AddTask(task: Task)
      modifies this`tasks
      ensures tasks == old(tasks) + [task]
      ensures |tasks| == |old(tasks)| + 1 && tasks[|tasks| - 1] == task
      ensures tasks[..|old(tasks)|] == old(tasks)
    {
      tasks := tasks + [task];
    }
  }
}
