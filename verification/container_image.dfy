/**
  The `kayobe_container_image` action plugin. It takes Docker-style
  arguments for building or pulling a container image and chooses the image
  module of the configured container engine. For Podman it first rewrites
  the `source` argument into Podman's own convention.

  The delegated module call is not modelled. `Run` returns the module name
  and the arguments it would hand to the module runner, or the error raised
  before any delegation.
 */
module ContainerImage {
  import opened Wrappers
  import opened Dicts
  import opened Values

  const DockerEngine: string := "docker"
  const PodmanEngine: string := "podman"
  const DockerModule: string := "community.docker.docker_image"
  const PodmanModule: string := "containers.podman.podman_image"

  /** The task variable that names the engine, and the argument names the translation touches. */
  const EngineVar: string := "container_engine"
  const SourceKey: string := "source"
  const StateKey: string := "state"
  const PullKey: string := "pull"

  /** The fixed engine-to-module table. */
  const EngineToModule: map<string, string> :=
    map[DockerEngine := DockerModule, PodmanEngine := PodmanModule]

  /** Why the plugin stops before delegating. */
  datatype Error =
    | MissingArgument(key: string)     // Python's KeyError on reading a required argument
    | UnsupportedSource(value: Value)  // AnsibleError for a `source` Podman cannot express

  /** The module the plugin hands over to, with the arguments it passes. */
  datatype Delegation<A> = Delegation(moduleName: Option<string>, args: A)

  /** The text of the AnsibleError raised for an unsupported `source`. */
  const UnsupportedSourcePrefix: string := "Unsupported source parameter: "

  function UnsupportedSourceMessage(v: Value): string {
    UnsupportedSourcePrefix + Show(v)
  }

  /** The engine named by the `container_engine` task variable, Docker when the variable is unset. */
  function EngineOf(taskVars: map<string, Value>): Value {
    if EngineVar in taskVars then taskVars[EngineVar] else Str(DockerEngine)
  }

  /** The table entry for an engine value, and no module for a value outside the table. */
  function ModuleFor(engine: Value): Option<string> {
    if engine.Str? && engine.s in EngineToModule then Some(EngineToModule[engine.s]) else None
  }

  /**
    Reference behaviour on the plain key-to-value view of the arguments:
    pass everything through unless the engine is Podman; for Podman,
    replace `source` by `state: "build"` or by `pull: true`.
   */
  function Translate(args: map<string, Value>, engine: Value): Result<Delegation<map<string, Value>>, Error> {
    if engine != Str(PodmanEngine) then
      Success(Delegation(ModuleFor(engine), args))
    else if SourceKey !in args then
      Failure(MissingArgument(SourceKey))
    else if args[SourceKey] == Str("build") then
      Success(Delegation(Some(PodmanModule), (args - {SourceKey})[StateKey := Str("build")]))
    else if args[SourceKey] == Str("pull") then
      Success(Delegation(Some(PodmanModule), (args - {SourceKey})[PullKey := Bool(true)]))
    else
      Failure(UnsupportedSource(args[SourceKey]))
  }

  /** The key-to-value view of a delegation computed on dicts. */
  function View(r: Result<Delegation<Dict<string, Value>>, Error>): Result<Delegation<map<string, Value>>, Error> {
    match r
    case Success(d) => Success(Delegation(d.moduleName, ToMap(d.args)))
    case Failure(e) => Failure(e)
  }

  /** Removing one key and setting another commute. */
  lemma RemoveThenSet<K, V>(m: map<K, V>, gone: K, added: K, v: V)
    requires gone != added
    ensures (m - {gone})[added := v] == m[added := v] - {gone}
  {
  }

  /** The Podman branch, step by step: read `source`, add `state` or `pull`, delete `source`. */
  function TranslateForPodman(moduleArgs: Dict<string, Value>): (r: Result<Dict<string, Value>, Error>)
    ensures r.Failure? ==> Translate(ToMap(moduleArgs), Str(PodmanEngine)) == Failure(r.error)
    ensures r.Success? ==>
      Translate(ToMap(moduleArgs), Str(PodmanEngine)) == Success(Delegation(Some(PodmanModule), ToMap(r.value)))
    ensures r.Success? && Valid(moduleArgs) ==> Valid(r.value)
  {
    var source :- Lookup(moduleArgs, SourceKey).ToResult(MissingArgument(SourceKey));
    var updated :-
      if source == Str("build") then Success(Store(moduleArgs, StateKey, Str("build")))
      else if source == Str("pull") then Success(Store(moduleArgs, PullKey, Bool(true)))
      else Failure(UnsupportedSource(source));
    StoreKeys(moduleArgs, StateKey, Str("build"));
    StoreKeys(moduleArgs, PullKey, Bool(true));
    RemoveThenSet(ToMap(moduleArgs), SourceKey, StateKey, Str("build"));
    RemoveThenSet(ToMap(moduleArgs), SourceKey, PullKey, Bool(true));
    Delete(updated, SourceKey).ToResult(MissingArgument(SourceKey))
  }

  /**
    The plugin's action up to the module call: the module it would run and
    the arguments, in dict order, it would pass. It agrees with `Translate`
    on the key-to-value view and keeps every key distinct.
   */
  function Run(taskArgs: Dict<string, Value>, taskVars: map<string, Value>): (r: Result<Delegation<Dict<string, Value>>, Error>)
    ensures View(r) == Translate(ToMap(taskArgs), EngineOf(taskVars))
    ensures r.Success? ==> r.value.moduleName == ModuleFor(EngineOf(taskVars))
    ensures EngineOf(taskVars) != Str(PodmanEngine) ==> r == Success(Delegation(ModuleFor(EngineOf(taskVars)), taskArgs))
    ensures r.Success? && Valid(taskArgs) ==> Valid(r.value.args)
  {
    var moduleArgs := taskArgs;
    var engine := EngineOf(taskVars);
    var forwarded :- if engine == Str(PodmanEngine) then TranslateForPodman(moduleArgs) else Success(moduleArgs);
    Success(Delegation(ModuleFor(engine), forwarded))
  }

  /** The table: "docker" and "podman" select their modules, every other engine value selects none. */
  lemma ModuleTable(engine: Value)
    ensures ModuleFor(engine) == Some(DockerModule) <==> engine == Str(DockerEngine)
    ensures ModuleFor(engine) == Some(PodmanModule) <==> engine == Str(PodmanEngine)
    ensures ModuleFor(engine).None? <==> engine != Str(DockerEngine) && engine != Str(PodmanEngine)
  {
  }

  /** Without a `container_engine` variable the engine is Docker and the arguments go through untouched. */
  lemma DefaultEngineIsDocker(taskArgs: Dict<string, Value>, taskVars: map<string, Value>)
    requires EngineVar !in taskVars
    ensures Run(taskArgs, taskVars) == Success(Delegation(Some(DockerModule), taskArgs))
  {
  }

  /**
    Any engine other than Podman receives exactly the caller's arguments,
    order included. This is the pass-through clause of `Run`'s contract,
    restated as a lemma on its own.
   */
  lemma NonPodmanPassesThrough(taskArgs: Dict<string, Value>, taskVars: map<string, Value>)
    requires EngineOf(taskVars) != Str(PodmanEngine)
    ensures Run(taskArgs, taskVars) == Success(Delegation(ModuleFor(EngineOf(taskVars)), taskArgs))
  {
  }

  /** An engine outside the table is not rejected: no module is chosen and the arguments pass through. */
  lemma UnknownEngineSelectsNoModule(taskArgs: Dict<string, Value>, taskVars: map<string, Value>)
    requires EngineOf(taskVars) != Str(DockerEngine) && EngineOf(taskVars) != Str(PodmanEngine)
    ensures Run(taskArgs, taskVars) == Success(Delegation(None, taskArgs))
  {
  }

  /** Podman, `source: build`: `state` becomes "build", `source` disappears, all else is kept. */
  lemma PodmanBuild(taskArgs: Dict<string, Value>, taskVars: map<string, Value>)
    requires EngineOf(taskVars) == Str(PodmanEngine)
    requires SourceKey in ToMap(taskArgs) && ToMap(taskArgs)[SourceKey] == Str("build")
    ensures Run(taskArgs, taskVars).Success?
    ensures Run(taskArgs, taskVars).value.moduleName == Some(PodmanModule)
    ensures var out := ToMap(Run(taskArgs, taskVars).value.args);
      && StateKey in out && out[StateKey] == Str("build")
      && SourceKey !in out
      && out.Keys == ToMap(taskArgs).Keys - {SourceKey} + {StateKey}
      && forall k :: k in out && k != StateKey ==> out[k] == ToMap(taskArgs)[k]
  {
    var m := ToMap(taskArgs);
    var r := Run(taskArgs, taskVars);
    assert View(r) == Success(Delegation(Some(PodmanModule), (m - {SourceKey})[StateKey := Str("build")]));
    assert ToMap(r.value.args) == (m - {SourceKey})[StateKey := Str("build")];
  }

  /** Podman, `source: pull`: `pull` becomes true, `source` disappears, all else is kept. */
  lemma PodmanPull(taskArgs: Dict<string, Value>, taskVars: map<string, Value>)
    requires EngineOf(taskVars) == Str(PodmanEngine)
    requires SourceKey in ToMap(taskArgs) && ToMap(taskArgs)[SourceKey] == Str("pull")
    ensures Run(taskArgs, taskVars).Success?
    ensures Run(taskArgs, taskVars).value.moduleName == Some(PodmanModule)
    ensures var out := ToMap(Run(taskArgs, taskVars).value.args);
      && PullKey in out && out[PullKey] == Bool(true)
      && SourceKey !in out
      && out.Keys == ToMap(taskArgs).Keys - {SourceKey} + {PullKey}
      && forall k :: k in out && k != PullKey ==> out[k] == ToMap(taskArgs)[k]
  {
    var m := ToMap(taskArgs);
    var r := Run(taskArgs, taskVars);
    assert View(r) == Success(Delegation(Some(PodmanModule), (m - {SourceKey})[PullKey := Bool(true)]));
    assert ToMap(r.value.args) == (m - {SourceKey})[PullKey := Bool(true)];
  }

  /** Podman with any other `source` value fails with that value and delegates nothing. */
  lemma PodmanUnsupportedSource(taskArgs: Dict<string, Value>, taskVars: map<string, Value>)
    requires EngineOf(taskVars) == Str(PodmanEngine)
    requires SourceKey in ToMap(taskArgs)
    requires ToMap(taskArgs)[SourceKey] != Str("build") && ToMap(taskArgs)[SourceKey] != Str("pull")
    ensures Run(taskArgs, taskVars) == Failure(UnsupportedSource(ToMap(taskArgs)[SourceKey]))
  {
  }

  /** Podman without a `source` argument fails on the missing key and delegates nothing. */
  lemma PodmanMissingSource(taskArgs: Dict<string, Value>, taskVars: map<string, Value>)
    requires EngineOf(taskVars) == Str(PodmanEngine)
    requires SourceKey !in ToMap(taskArgs)
    ensures Run(taskArgs, taskVars) == Failure(MissingArgument(SourceKey))
  {
  }

  /** The plugin stops before delegating exactly when Podman meets a missing or unknown `source`. */
  lemma RunFailsIff(taskArgs: Dict<string, Value>, taskVars: map<string, Value>)
    ensures Run(taskArgs, taskVars).Failure? <==>
      && EngineOf(taskVars) == Str(PodmanEngine)
      && (SourceKey !in ToMap(taskArgs)
          || (ToMap(taskArgs)[SourceKey] != Str("build") && ToMap(taskArgs)[SourceKey] != Str("pull")))
  {
  }

  /** Passing arguments through is idempotent: running again on the forwarded arguments changes nothing. */
  lemma PassThroughIdempotent(taskArgs: Dict<string, Value>, taskVars: map<string, Value>)
    requires EngineOf(taskVars) != Str(PodmanEngine)
    ensures Run(taskArgs, taskVars).Success?
    ensures Run(Run(taskArgs, taskVars).value.args, taskVars) == Run(taskArgs, taskVars)
  {
  }

  /** Podman arguments never carry `source`, so translating them a second time fails on the missing key. */
  lemma PodmanOutputNotRetranslatable(taskArgs: Dict<string, Value>, taskVars: map<string, Value>)
    requires EngineOf(taskVars) == Str(PodmanEngine)
    requires SourceKey in ToMap(taskArgs)
    requires ToMap(taskArgs)[SourceKey] in {Str("build"), Str("pull")}
    ensures Run(taskArgs, taskVars).Success?
    ensures Run(Run(taskArgs, taskVars).value.args, taskVars) == Failure(MissingArgument(SourceKey))
  {
    var out := Run(taskArgs, taskVars).value.args;
    assert SourceKey !in ToMap(out);
  }

  /**
    Order of the forwarded Podman arguments: the caller's keys without
    `source`, in their order, with the added key last unless it was already present.
   */
  lemma PodmanKeyOrder(taskArgs: Dict<string, Value>, taskVars: map<string, Value>, added: string)
    requires EngineOf(taskVars) == Str(PodmanEngine)
    requires SourceKey in ToMap(taskArgs)
    requires (ToMap(taskArgs)[SourceKey] == Str("build") && added == StateKey)
          || (ToMap(taskArgs)[SourceKey] == Str("pull") && added == PullKey)
    ensures Run(taskArgs, taskVars).Success?
    ensures Keys(Run(taskArgs, taskVars).value.args) ==
      if added in Keys(taskArgs) then Erase(Keys(taskArgs), SourceKey)
      else Erase(Keys(taskArgs), SourceKey) + [added]
  {
    var v := if added == StateKey then Str("build") else Bool(true);
    assert Run(taskArgs, taskVars).value.args == Drop(Store(taskArgs, added, v), SourceKey);
    StoreKeys(taskArgs, added, v);
    DropKeys(Store(taskArgs, added, v), SourceKey);
    if added !in Keys(taskArgs) {
      EraseAppend(Keys(taskArgs), added, SourceKey);
    }
  }

  /**
    The error text is the prefix followed by the value as `str()` shows it.
    A string appears verbatim. An integer appears as its decimal digits
    without leading zeros, after a minus sign when negative, and those
    digits denote its magnitude.
   */
  lemma UnsupportedSourceMessageNamesValue(v: Value)
    ensures var msg := UnsupportedSourceMessage(v);
      && |msg| >= |UnsupportedSourcePrefix|
      && msg[..|UnsupportedSourcePrefix|] == UnsupportedSourcePrefix
      && var shown := msg[|UnsupportedSourcePrefix|..];
      && (v.Str? ==> shown == v.s)
      && (v.Int? && v.i >= 0 ==> CanonicalDigits(shown) && ReadDigits(shown) == v.i)
      && (v.Int? && v.i < 0 ==>
            |shown| > 1 && shown[0] == '-' && CanonicalDigits(shown[1..]) && ReadDigits(shown[1..]) == -v.i)
      && (v.Bool? ==> shown == if v.b then "True" else "False")
      && (v.NoneValue? ==> shown == "None")
  {
    var msg := UnsupportedSourceMessage(v);
    assert msg[|UnsupportedSourcePrefix|..] == Show(v);
    if v.Int? {
      ShowIntDenotes(v.i);
    }
  }
}
