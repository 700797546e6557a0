/**
 * Start-up and one-shot lifecycle of the injected dumper (`EntryPoint`).
 *
 * The foreign world is abstracted: the host executable is a `ProcessModule`
 * carrying its file version, its symbol table and its pointer-mangling
 * token; installing a detour, attaching the console, resuming the host
 * thread and exiting the process are recorded as events in `trace`; the
 * foreign steps that can throw (loading plugins, initialising plugins,
 * reading the version, running the dump) are named by a `failing` set
 * handed to the intercept.
 *
 * The decisions `Main` makes are pure functions of the host executable
 * (`PackageManagerTarget`, `EngineInitChoice`, `ValidateDatesTarget`,
 * `StartupRun`); the class `EntryPoint` holds the static fields and its
 * methods change them step by step, proved against those functions.
 */
module Startup {
  import opened Wrappers
  import opened Symbols
  import opened Versions

  /** A module of the current process; `ptr64` is the `NameMangling.Ptr64` token of its build ("E" on 64-bit, "" on 32-bit). */
  datatype ProcessModule = ProcessModule(moduleName: string, baseAddress: Address, version: FileVersion,
                                         symbols: SymbolTable, ptr64: string)

  datatype EntryPointArgs = EntryPointArgs(outputPath: string, projectPath: string, threadHandle: Address,
                                           silent: bool, verbose: bool)

  /** The replacement functions a detour can redirect to. */
  datatype Hook = InitializePackageManagerHook | AfterEverythingLoadedHook
                | PlayerInitEngineNoGraphicsHook | ValidateDatesHook

  datatype Detour = Detour(target: Address, hook: Hook)

  datatype Subscriber = LoadPluginsHandler | ExecuteDumperHandler

  /** The foreign steps that may throw while the intercept runs. */
  datatype ExternalStep = LoadPluginsStep | InitializePluginsStep | VersionReadStep | DumpStep

  datatype Failure = MissingSymbol(error: ResolveError) | MissingModule(re: Regex) | Thrown(step: ExternalStep)

  /** How `ExecuteDumper` obtains the host version: the engine's own version string, or the scripting property read through mono. */
  datatype VersionSource =
    | EngineVersionString(getter: Address, parser: Address)
    | ScriptingProperty(getter: Address, monoBase: Address)

  datatype Event =
    | ConsoleAttached
    | DetourAttached(hook: Hook, target: Address)
    | FallbackLoaderInitialized
    | Subscribed(subscriber: Subscriber)
    | ThreadResumed
    | OriginalCalled(original: Hook)
    | PluginsLoaded
    | PluginsInitialized
    | VersionRead(source: VersionSource)
    | Dumped
    | ErrorLogged(failure: Failure)
    | ProcessExited(code: int)

  /** The events a piece of the run produces, and the failure it ends with, if any. */
  datatype Run = Run(events: seq<Event>, failure: Option<Failure>)

  datatype EngineInit = FallbackLoader | HookAfterEverythingLoaded(target: Address)
                      | HookPlayerInitEngineNoGraphics(target: Address)

  datatype Phase = Unattached | Attached | Fired | Exited(code: int) | StartupFailed(failure: Failure)

  // Symbol names, with the pointer-mangling token of the host build spliced in.

  function PackageManagerInitializeName(ptr64: string): string {
    "?Initialize@Api@PackageManager@@I" + ptr64 + "AAXXZ"
  }

  function ValidateDatesName(ptr64: string): string {
    "?ValidateDates@LicenseManager@@QAEHP" + ptr64 + "AVDOMDocument@xercesc_3_1@@@Z"
  }

  function GameEngineVersionName(ptr64: string): string {
    "?GameEngineVersion@PlatformWrapper@UnityEngine@@SAP" + ptr64 + "BDXZ"
  }

  function UnityVersionConstructorNames(ptr64: string): seq<string> {
    ["??0UnityVersion@@Q" + ptr64 + "AA@P" + ptr64 + "BD@Z", "??0UnityVersion@@QAE@P" + ptr64 + "BD@Z"]
  }

  function UnityVersionPropertyNames(ptr64: string): seq<string> {
    ["?Application_Get_Custom_PropUnityVersion@@YAP" + ptr64 + "AUMonoString@@XZ",
     "?Application_Get_Custom_PropUnityVersion@@YAP" + ptr64 + "AVScriptingBackendNativeStringPtrOpaque@@XZ"]
  }

  /** `Regex.Escape("?AfterEverythingLoaded@Application@") + "*"` */
  const AfterEverythingLoadedRegex: Regex := StemThenRepeat("?AfterEverythingLoaded@Application", '@')

  /** `Regex.Escape("?PlayerInitEngineNoGraphics@") + "*"` */
  const PlayerInitEngineNoGraphicsRegex: Regex := StemThenRepeat("?PlayerInitEngineNoGraphics", '@')

  /** `new Regex("^mono", RegexOptions.IgnoreCase)` */
  const MonoModuleRegex: Regex := PrefixIgnoreCase("mono")

  // The decisions of `Main`, as functions of the host executable.

  /** The console is re-attached except on 2017.1 and 2017.2, where it can hang the editor. */
  predicate ConsoleAttachAllowed(v: FileVersion) {
    !(v.major == 2017 && v.minor < 3)
  }

  /** On 2017 releases the package manager start-up is stubbed out when its symbol exists; elsewhere it is left alone. */
  function PackageManagerTarget(m: ProcessModule): Option<Address> {
    if m.version.major == 2017 then TryResolve(m.symbols, PackageManagerInitializeName(m.ptr64)) else None
  }

  /**
   * The single engine-initialisation intercept: the fallback loader on
   * major version 3, otherwise the first `AfterEverythingLoaded` match, and
   * failing that the first `PlayerInitEngineNoGraphics` match, which is
   * required.
   */
  function EngineInitChoice(m: ProcessModule): Result<EngineInit, Failure>
  {
    if m.version.major == 3 then Ok(FallbackLoader)
    else match TryResolveFirstMatch(m.symbols, AfterEverythingLoadedRegex)
      case Some(a) => Ok(HookAfterEverythingLoaded(a))
      case None =>
        match ResolveFirstMatch(m.symbols, PlayerInitEngineNoGraphicsRegex)
        case Err(e) => Err(MissingSymbol(e))
        case Ok(a) => Ok(HookPlayerInitEngineNoGraphics(a))
  }

  /** Unity 4.0 to 4.3 get their licence-date check replaced; there the symbol is required. */
  function ValidateDatesTarget(m: ProcessModule): Result<Option<Address>, Failure>
  {
    if m.version.major == 4 && m.version.minor <= 3 then
      match Resolve(m.symbols, [ValidateDatesName(m.ptr64)])
      case Err(e) => Err(MissingSymbol(e))
      case Ok(a) => Ok(Some(a))
    else Ok(None)
  }

  /** The package-manager stub targets the first symbol of its exact name, and only on 2017 hosts. */
  lemma PackageManagerTargetSpec(m: ProcessModule)
    ensures PackageManagerTarget(m).Some? <==>
              m.version.major == 2017 && exists i :: 0 <= i < |m.symbols| && m.symbols[i].name == PackageManagerInitializeName(m.ptr64)
    ensures PackageManagerTarget(m).Some? ==>
              exists i :: 0 <= i < |m.symbols| && m.symbols[i] == Symbol(PackageManagerInitializeName(m.ptr64), PackageManagerTarget(m).value)
  {
  }

  /**
   * Exactly one engine-initialisation path, in priority order: the fallback
   * loader on major version 3; otherwise the first symbol matching
   * `AfterEverythingLoaded`; otherwise the first matching
   * `PlayerInitEngineNoGraphics`; failing only when neither matches.
   */
  lemma EngineInitPriority(m: ProcessModule)
    ensures EngineInitChoice(m) == Ok(FallbackLoader) <==> m.version.major == 3
    ensures EngineInitChoice(m).Err? <==>
              m.version.major != 3
              && (forall i :: 0 <= i < |m.symbols| ==> !IsMatch(AfterEverythingLoadedRegex, m.symbols[i].name))
              && (forall i :: 0 <= i < |m.symbols| ==> !IsMatch(PlayerInitEngineNoGraphicsRegex, m.symbols[i].name))
    ensures EngineInitChoice(m).Err? ==> EngineInitChoice(m).error == MissingSymbol(NoSymbolMatches(PlayerInitEngineNoGraphicsRegex))
    ensures (EngineInitChoice(m).Ok? && EngineInitChoice(m).value.HookAfterEverythingLoaded?) <==>
              m.version.major != 3 && exists i :: 0 <= i < |m.symbols| && IsMatch(AfterEverythingLoadedRegex, m.symbols[i].name)
    ensures EngineInitChoice(m).Ok? && EngineInitChoice(m).value.HookAfterEverythingLoaded? ==>
              TryResolveFirstMatch(m.symbols, AfterEverythingLoadedRegex) == Some(EngineInitChoice(m).value.target)
    ensures EngineInitChoice(m).Ok? && EngineInitChoice(m).value.HookPlayerInitEngineNoGraphics? ==>
              TryResolveFirstMatch(m.symbols, AfterEverythingLoadedRegex).None?
              && TryResolveFirstMatch(m.symbols, PlayerInitEngineNoGraphicsRegex) == Some(EngineInitChoice(m).value.target)
  {
  }

  /** The licence-check stub is wanted exactly on 4.0 to 4.3, where a missing symbol is an error. */
  lemma ValidateDatesTargetSpec(m: ProcessModule)
    ensures ValidateDatesTarget(m) == Ok(None) <==> !(m.version.major == 4 && m.version.minor <= 3)
    ensures ValidateDatesTarget(m).Err? <==>
              m.version.major == 4 && m.version.minor <= 3
              && forall i :: 0 <= i < |m.symbols| ==> m.symbols[i].name != ValidateDatesName(m.ptr64)
    ensures ValidateDatesTarget(m).Err? ==> ValidateDatesTarget(m).error == MissingSymbol(SymbolNotFound([ValidateDatesName(m.ptr64)]))
    ensures ValidateDatesTarget(m).Ok? && ValidateDatesTarget(m).value.Some? ==>
              TryResolve(m.symbols, ValidateDatesName(m.ptr64)) == ValidateDatesTarget(m).value
  {
  }

  function EngineInitEvents(init: EngineInit): seq<Event> {
    match init
    case FallbackLoader => [FallbackLoaderInitialized]
    case HookAfterEverythingLoaded(a) => [DetourAttached(AfterEverythingLoadedHook, a)]
    case HookPlayerInitEngineNoGraphics(a) => [DetourAttached(PlayerInitEngineNoGraphicsHook, a)]
  }

  function OptionalDetourEvents(hook: Hook, target: Option<Address>): seq<Event> {
    match target
    case None => []
    case Some(a) => [DetourAttached(hook, a)]
  }

  function ConsoleEvents(v: FileVersion): seq<Event> {
    if ConsoleAttachAllowed(v) then [ConsoleAttached, ConsoleAttached] else []
  }

  const SubscriptionEvents: seq<Event> := [Subscribed(LoadPluginsHandler), Subscribed(ExecuteDumperHandler), ThreadResumed]

  /** The four decisions `Main` takes from the host executable. */
  datatype StartupDecisions = StartupDecisions(version: FileVersion, packageManager: Option<Address>,
                                               engineInit: Result<EngineInit, Failure>,
                                               validateDates: Result<Option<Address>, Failure>)

  function Decide(m: ProcessModule): StartupDecisions {
    StartupDecisions(m.version, PackageManagerTarget(m), EngineInitChoice(m), ValidateDatesTarget(m))
  }

  /**
   * What `Main` does after the package-manager stub: the engine-init
   * intercept, the licence-check stub, the two subscriptions and the
   * resumption of the host thread; a missing required symbol stops the run
   * with the error logged, keeping the detours already attached.
   */
  function InstallRun(d: StartupDecisions): Run {
    match d.engineInit
    case Err(f) => Run([ErrorLogged(f)], Some(f))
    case Ok(init) =>
      match d.validateDates
      case Err(f) => Run(EngineInitEvents(init) + [ErrorLogged(f)], Some(f))
      case Ok(vd) => Run(EngineInitEvents(init) + OptionalDetourEvents(ValidateDatesHook, vd) + SubscriptionEvents, None)
  }

  /**
   * What `Main` does with its decisions, in order: the console re-attached
   * twice (before and after the logger is set up), the package-manager stub,
   * then the rest of the installation.
   */
  function RunStartup(d: StartupDecisions): Run {
    var rest := InstallRun(d);
    Run(ConsoleEvents(d.version) + OptionalDetourEvents(InitializePackageManagerHook, d.packageManager) + rest.events,
        rest.failure)
  }

  function StartupRun(m: ProcessModule): Run {
    RunStartup(Decide(m))
  }

  /** The detour `Main` leaves in the static field for `hook`, when it runs to the end. */
  function PlannedDetour(d: StartupDecisions, hook: Hook): Option<Detour> {
    match hook
    case InitializePackageManagerHook =>
      if d.packageManager.Some? then Some(Detour(d.packageManager.value, hook)) else None
    case AfterEverythingLoadedHook =>
      if d.engineInit.Ok? && d.engineInit.value.HookAfterEverythingLoaded?
      then Some(Detour(d.engineInit.value.target, hook)) else None
    case PlayerInitEngineNoGraphicsHook =>
      if d.engineInit.Ok? && d.engineInit.value.HookPlayerInitEngineNoGraphics?
      then Some(Detour(d.engineInit.value.target, hook)) else None
    case ValidateDatesHook =>
      if d.validateDates.Ok? && d.validateDates.value.Some?
      then Some(Detour(d.validateDates.value.value, hook)) else None
  }

  // Properties of the start-up run.

  /** Console re-attachment happens exactly when the host is not 2017.1 or 2017.2. */
  lemma ConsoleAttachedIff(m: ProcessModule)
    ensures ConsoleAttached in StartupRun(m).events <==> !(m.version.major == 2017 && m.version.minor < 3)
  {
    var d := Decide(m);
    var r := RunStartup(d);
    if ConsoleAttachAllowed(d.version) {
      assert r.events[0] == ConsoleAttached;
    }
  }

  lemma {:induction false} PackageManagerEventIff(d: StartupDecisions, a: Address)
    ensures DetourAttached(InitializePackageManagerHook, a) in RunStartup(d).events <==> d.packageManager == Some(a)
  {
    var console := ConsoleEvents(d.version);
    var pm := OptionalDetourEvents(InitializePackageManagerHook, d.packageManager);
    var rest := InstallRun(d).events;
    var e := DetourAttached(InitializePackageManagerHook, a);
    assert RunStartup(d).events == console + pm + rest;
    assert e !in console;
    assert e !in rest by {
      match d.engineInit
      case Err(f) =>
      case Ok(init) =>
        assert e !in EngineInitEvents(init);
        match d.validateDates
        case Err(f) =>
        case Ok(vd) =>
          assert e !in OptionalDetourEvents(ValidateDatesHook, vd);
    }
    assert e in pm <==> d.packageManager == Some(a);
  }

  /** The package-manager stub is attached exactly on 2017 hosts whose symbol resolves, and its absence never fails start-up. */
  lemma PackageManagerDetourIff(m: ProcessModule, a: Address)
    ensures DetourAttached(InitializePackageManagerHook, a) in StartupRun(m).events
            <==> m.version.major == 2017 && TryResolve(m.symbols, PackageManagerInitializeName(m.ptr64)) == Some(a)
    ensures StartupRun(m).failure.Some? ==> StartupRun(m).failure.value.error != SymbolNotFound([PackageManagerInitializeName(m.ptr64)])
  {
    PackageManagerEventIff(Decide(m), a);
    EngineInitPriority(m);
    ValidateDatesTargetSpec(m);
  }

  /** Start-up fails exactly when a required symbol is missing: the `PlayerInitEngineNoGraphics` fallback, or the licence check on 4.0 to 4.3. */
  lemma StartupFailsIff(m: ProcessModule)
    ensures StartupRun(m).failure.Some? <==>
              (m.version.major != 3
               && TryResolveFirstMatch(m.symbols, AfterEverythingLoadedRegex).None?
               && TryResolveFirstMatch(m.symbols, PlayerInitEngineNoGraphicsRegex).None?)
              || (m.version.major == 4 && m.version.minor <= 3
                  && TryResolve(m.symbols, ValidateDatesName(m.ptr64)).None?)
  {
    EngineInitPriority(m);
    ValidateDatesTargetSpec(m);
  }

  predicate IsEngineInitPath(e: Event) {
    e == FallbackLoaderInitialized
    || (e.DetourAttached? && (e.hook == AfterEverythingLoadedHook || e.hook == PlayerInitEngineNoGraphicsHook))
  }

  function EngineInitPathCount(evs: seq<Event>): nat {
    if evs == [] then 0 else (if IsEngineInitPath(evs[0]) then 1 else 0) + EngineInitPathCount(evs[1..])
  }

  lemma {:induction false} EngineInitPathCountConcat(a: seq<Event>, b: seq<Event>)
    ensures EngineInitPathCount(a + b) == EngineInitPathCount(a) + EngineInitPathCount(b)
    decreases |a|
  {
    if a == [] {
      assert a + b == b;
    } else {
      assert (a + b)[1..] == a[1..] + b;
      EngineInitPathCountConcat(a[1..], b);
    }
  }

  /** A successful start-up sets up exactly one engine-initialisation path: the fallback loader or one of the two intercepts. */
  lemma {:induction false} ExactlyOneEngineInitPath(d: StartupDecisions)
    requires RunStartup(d).failure.None?
    ensures EngineInitPathCount(RunStartup(d).events) == 1
  {
    var console := ConsoleEvents(d.version);
    var pm := OptionalDetourEvents(InitializePackageManagerHook, d.packageManager);
    var init := EngineInitEvents(d.engineInit.value);
    var vd := OptionalDetourEvents(ValidateDatesHook, d.validateDates.value);
    assert InstallRun(d).events == init + vd + SubscriptionEvents;
    AppendAssoc(console + pm, init + vd, SubscriptionEvents);
    AppendAssoc(console + pm, init, vd);
    assert RunStartup(d).events == console + pm + init + vd + SubscriptionEvents;
    EngineInitPathCountConcat(console + pm + init + vd, SubscriptionEvents);
    EngineInitPathCountConcat(console + pm + init, vd);
    EngineInitPathCountConcat(console + pm, init);
    EngineInitPathCountConcat(console, pm);
    assert EngineInitPathCount(console) == 0 by {
      if console != [] {
        assert console[1..][1..] == [];
      }
    }
    assert EngineInitPathCount(pm) == 0 by {
      if pm != [] {
        assert pm[1..] == [];
      }
    }
    assert EngineInitPathCount(init) == 1 by {
      assert init[1..] == [];
    }
    assert EngineInitPathCount(vd) == 0 by {
      if vd != [] {
        assert vd[1..] == [];
      }
    }
    assert EngineInitPathCount(SubscriptionEvents) == 0 by {
      assert SubscriptionEvents[1..][1..][1..] == [];
    }
  }

  lemma {:induction false} ValidateDatesEventIff(d: StartupDecisions)
    requires RunStartup(d).failure.None?
    ensures (exists a :: DetourAttached(ValidateDatesHook, a) in RunStartup(d).events) <==> d.validateDates.value.Some?
  {
    var head := ConsoleEvents(d.version) + OptionalDetourEvents(InitializePackageManagerHook, d.packageManager)
                + EngineInitEvents(d.engineInit.value);
    var vd := OptionalDetourEvents(ValidateDatesHook, d.validateDates.value);
    var evs := RunStartup(d).events;
    assert evs == head + vd + SubscriptionEvents;
    if d.validateDates.value.Some? {
      assert evs[|head|] == DetourAttached(ValidateDatesHook, d.validateDates.value.value);
    } else {
      assert vd == [];
      forall a ensures DetourAttached(ValidateDatesHook, a) !in evs {
        assert DetourAttached(ValidateDatesHook, a) !in head;
      }
    }
  }

  /** On a successful start-up the licence-check stub is attached exactly on 4.0 to 4.3. */
  lemma ValidateDatesDetourIff(m: ProcessModule)
    requires StartupRun(m).failure.None?
    ensures (exists a :: DetourAttached(ValidateDatesHook, a) in StartupRun(m).events)
            <==> m.version.major == 4 && m.version.minor <= 3
  {
    ValidateDatesTargetSpec(m);
    ValidateDatesEventIff(Decide(m));
  }

  /**
   * The host thread is resumed only on success, and only after both
   * subscribers are registered, `LoadPlugins` first; a failed start-up ends
   * with its error logged and never resumes the thread.
   */
  lemma ResumeFollowsSubscription(d: StartupDecisions)
    ensures var r := RunStartup(d);
            r.failure.None? ==>
              |r.events| >= 3
              && r.events[|r.events| - 3..] == [Subscribed(LoadPluginsHandler), Subscribed(ExecuteDumperHandler), ThreadResumed]
    ensures var r := RunStartup(d);
            r.failure.Some? ==> ThreadResumed !in r.events && r.events[|r.events| - 1] == ErrorLogged(r.failure.value)
  {
  }

  // The intercept side: what runs when the host reaches the hooked function.

  /** The first module, in enumeration order, whose name `re` matches. */
  function FirstMatchingModule(modules: seq<ProcessModule>, re: Regex): (r: Option<ProcessModule>)
    ensures r.None? <==> forall i :: 0 <= i < |modules| ==> !IsMatch(re, modules[i].moduleName)
    ensures r.Some? ==> exists k :: 0 <= k < |modules| && modules[k] == r.value && IsMatch(re, r.value.moduleName)
                                  && forall j :: 0 <= j < k ==> !IsMatch(re, modules[j].moduleName)
    decreases |modules|
  {
    if |modules| == 0 then None
    else if IsMatch(re, modules[0].moduleName) then Some(modules[0])
    else
      var r := FirstMatchingModule(modules[1..], re);
      assert r.Some? ==> exists k :: 0 < k < |modules| && modules[k] == r.value && IsMatch(re, r.value.moduleName)
                                     && forall j :: 0 <= j < k ==> !IsMatch(re, modules[j].moduleName) by {
        if r.Some? {
          var k :| 0 <= k < |modules[1..]| && modules[1..][k] == r.value && IsMatch(re, r.value.moduleName)
                   && forall j :: 0 <= j < k ==> !IsMatch(re, modules[1..][j].moduleName);
          assert modules[k + 1] == modules[1..][k];
          forall j | 0 < j < k + 1 ensures !IsMatch(re, modules[j].moduleName) {
            assert modules[j] == modules[1..][j - 1];
          }
        }
      }
      assert r.None? ==> forall i :: 0 <= i < |modules| ==> !IsMatch(re, modules[i].moduleName) by {
        if r.None? {
          forall i | 0 < i < |modules| ensures !IsMatch(re, modules[i].moduleName) {
            assert modules[i] == modules[1..][i - 1];
          }
        }
      }
      r
  }

  /**
   * Where `ExecuteDumper` gets the host version: from `GameEngineVersion`
   * (parsed by the `UnityVersion` constructor under either of its two names)
   * when that symbol exists, otherwise from the scripting property, converted
   * through the first process module whose name starts with "mono".
   */
  function VersionSourceFor(m: ProcessModule, modules: seq<ProcessModule>): Result<VersionSource, Failure>
  {
    match TryResolve(m.symbols, GameEngineVersionName(m.ptr64))
    case Some(getter) =>
      (match Resolve(m.symbols, UnityVersionConstructorNames(m.ptr64))
       case Err(e) => Err(MissingSymbol(e))
       case Ok(parser) => Ok(EngineVersionString(getter, parser)))
    case None =>
      match Resolve(m.symbols, UnityVersionPropertyNames(m.ptr64))
      case Err(e) => Err(MissingSymbol(e))
      case Ok(getter) =>
        match FirstMatchingModule(modules, MonoModuleRegex)
        case None => Err(MissingModule(MonoModuleRegex))
        case Some(mono) => Ok(ScriptingProperty(getter, mono.baseAddress))
  }

  /**
   * The version-source priority: `GameEngineVersion` whenever it resolves
   * (then the `UnityVersion` constructor is required under one of its two
   * names); only otherwise the scripting property, which needs its symbol
   * and a module whose name starts with "mono", the first such one.
   */
  lemma VersionSourcePriority(m: ProcessModule, modules: seq<ProcessModule>)
    ensures var r := VersionSourceFor(m, modules);
            TryResolve(m.symbols, GameEngineVersionName(m.ptr64)).Some? ==>
              (r.Ok? <==> Resolve(m.symbols, UnityVersionConstructorNames(m.ptr64)).Ok?)
              && (r.Ok? ==> r.value == EngineVersionString(TryResolve(m.symbols, GameEngineVersionName(m.ptr64)).value,
                                                           Resolve(m.symbols, UnityVersionConstructorNames(m.ptr64)).value))
    ensures var r := VersionSourceFor(m, modules);
            TryResolve(m.symbols, GameEngineVersionName(m.ptr64)).None? ==>
              (r.Ok? <==> Resolve(m.symbols, UnityVersionPropertyNames(m.ptr64)).Ok?
                          && exists k :: 0 <= k < |modules| && IsMatch(MonoModuleRegex, modules[k].moduleName))
              && (r.Ok? ==> r.value.ScriptingProperty?
                            && r.value.getter == Resolve(m.symbols, UnityVersionPropertyNames(m.ptr64)).value)
    ensures var r := VersionSourceFor(m, modules);
            r.Ok? && r.value.ScriptingProperty? ==>
              exists k :: 0 <= k < |modules| && modules[k].baseAddress == r.value.monoBase
                          && IsMatch(MonoModuleRegex, modules[k].moduleName)
                          && forall j :: 0 <= j < k ==> !IsMatch(MonoModuleRegex, modules[j].moduleName)
  {
  }

  /** `ExecuteDumper`: initialise the plugins, read the version, run the dump; each step may throw. */
  function ExecuteDumperRun(source: Result<VersionSource, Failure>, failing: set<ExternalStep>): Run {
    if InitializePluginsStep in failing then Run([], Some(Thrown(InitializePluginsStep)))
    else
      var rest := DumpRun(source, failing);
      Run([PluginsInitialized] + rest.events, rest.failure)
  }

  /** The part of `ExecuteDumper` after the plugins are initialised: read the version, then dump. */
  function DumpRun(source: Result<VersionSource, Failure>, failing: set<ExternalStep>): Run {
    match source
    case Err(f) => Run([], Some(f))
    case Ok(src) =>
      if VersionReadStep in failing then Run([], Some(Thrown(VersionReadStep)))
      else if DumpStep in failing then Run([VersionRead(src)], Some(Thrown(DumpStep)))
      else Run([VersionRead(src), Dumped], None)
  }

  /**
   * The dumper's steps happen in order and stop at the first that throws:
   * the dump completes exactly when the version source is found and no step
   * throws, and otherwise the run is a proper prefix of the full sequence,
   * failing with the first failing step in source order.
   */
  lemma DumperStepsInOrder(source: Result<VersionSource, Failure>, failing: set<ExternalStep>)
    ensures ExecuteDumperRun(source, failing).failure.None?
            <==> source.Ok? && InitializePluginsStep !in failing && VersionReadStep !in failing && DumpStep !in failing
    ensures source.Ok? ==>
              var full := [PluginsInitialized, VersionRead(source.value), Dumped];
              var events := ExecuteDumperRun(source, failing).events;
              |events| <= 3 && events == full[..|events|]
              && (|events| == 3 <==> ExecuteDumperRun(source, failing).failure.None?)
    ensures Dumped in ExecuteDumperRun(source, failing).events <==> ExecuteDumperRun(source, failing).failure.None?
    ensures InitializePluginsStep in failing ==> ExecuteDumperRun(source, failing) == Run([], Some(Thrown(InitializePluginsStep)))
    ensures InitializePluginsStep !in failing && source.Err?
            ==> ExecuteDumperRun(source, failing) == Run([PluginsInitialized], Some(source.error))
    ensures InitializePluginsStep !in failing && source.Ok? && VersionReadStep in failing
            ==> ExecuteDumperRun(source, failing).failure == Some(Thrown(VersionReadStep))
    ensures InitializePluginsStep !in failing && source.Ok? && VersionReadStep !in failing && DumpStep in failing
            ==> ExecuteDumperRun(source, failing).failure == Some(Thrown(DumpStep))
  {
  }

  /** One subscriber's run; `dumper` is what `ExecuteDumper` does on this host. */
  function SubscriberRun(s: Subscriber, dumper: Run, failing: set<ExternalStep>): Run {
    match s
    case LoadPluginsHandler =>
      if LoadPluginsStep in failing then Run([], Some(Thrown(LoadPluginsStep))) else Run([PluginsLoaded], None)
    case ExecuteDumperHandler => dumper
  }

  /** `OnEngineInitialized?.Invoke()`: the subscribers in registration order, stopping at the first that throws. */
  function InvokeAll(subs: seq<Subscriber>, dumper: Run, failing: set<ExternalStep>): Run
    decreases |subs|
  {
    if subs == [] then Run([], None)
    else
      var before := InvokeAll(subs[..|subs| - 1], dumper, failing);
      if before.failure.Some? then before
      else
        var last := SubscriberRun(subs[|subs| - 1], dumper, failing);
        Run(before.events + last.events, last.failure)
  }

  /**
   * `HandleEngineInitialization`: re-attach the console, invoke the
   * subscribers, log an escaping error, and in every case exit with code 0.
   */
  function EngineInitializationRun(subs: seq<Subscriber>, dumper: Run, failing: set<ExternalStep>): seq<Event> {
    var invoked := InvokeAll(subs, dumper, failing);
    [ConsoleAttached] + invoked.events
    + (if invoked.failure.Some? then [ErrorLogged(invoked.failure.value)] else [])
    + [ProcessExited(0)]
  }

  /** Once a subscriber has thrown, the later ones never run. */
  lemma {:induction false} FailureStopsInvocation(subs: seq<Subscriber>, i: nat, dumper: Run, failing: set<ExternalStep>)
    requires i <= |subs|
    requires InvokeAll(subs[..i], dumper, failing).failure.Some?
    ensures InvokeAll(subs, dumper, failing) == InvokeAll(subs[..i], dumper, failing)
    decreases |subs| - i
  {
    if i < |subs| {
      var shorter := subs[..|subs| - 1];
      assert shorter[..i] == subs[..i];
      FailureStopsInvocation(shorter, i, dumper, failing);
    } else {
      assert subs[..i] == subs;
    }
  }

  lemma {:induction false} InvokeAllNeverExits(subs: seq<Subscriber>, dumper: Run, failing: set<ExternalStep>, code: int)
    requires ProcessExited(code) !in dumper.events
    ensures ProcessExited(code) !in InvokeAll(subs, dumper, failing).events
    decreases |subs|
  {
    if subs != [] {
      InvokeAllNeverExits(subs[..|subs| - 1], dumper, failing, code);
    }
  }

  /**
   * The intercept always ends the process with code 0, as its last and only
   * exit, and an escaping error is logged right before that exit.
   */
  lemma ExitIsFinal(subs: seq<Subscriber>, source: Result<VersionSource, Failure>, failing: set<ExternalStep>)
    ensures var dumper := ExecuteDumperRun(source, failing);
            var evs := EngineInitializationRun(subs, dumper, failing);
            && evs[|evs| - 1] == ProcessExited(0)
            && (forall code :: ProcessExited(code) !in evs[..|evs| - 1])
            && (InvokeAll(subs, dumper, failing).failure.Some? ==>
                  evs[|evs| - 2] == ErrorLogged(InvokeAll(subs, dumper, failing).failure.value))
  {
    var dumper := ExecuteDumperRun(source, failing);
    var invoked := InvokeAll(subs, dumper, failing);
    var evs := EngineInitializationRun(subs, dumper, failing);
    var logged := if invoked.failure.Some? then [ErrorLogged(invoked.failure.value)] else [];
    assert evs[..|evs| - 1] == [ConsoleAttached] + invoked.events + logged;
    forall code ensures ProcessExited(code) !in evs[..|evs| - 1] {
      InvokeAllNeverExits(subs, dumper, failing, code);
    }
  }

  /**
   * With the subscribers as `Main` registers them, plugins are loaded before
   * the dumper runs, and a throwing plugin loader keeps the dumper from
   * running at all.
   */
  lemma SubscribersRunInOrder(dumper: Run, failing: set<ExternalStep>)
    ensures LoadPluginsStep in failing ==>
              EngineInitializationRun([LoadPluginsHandler, ExecuteDumperHandler], dumper, failing)
              == [ConsoleAttached, ErrorLogged(Thrown(LoadPluginsStep)), ProcessExited(0)]
    ensures LoadPluginsStep !in failing ==>
              EngineInitializationRun([LoadPluginsHandler, ExecuteDumperHandler], dumper, failing)
              == [ConsoleAttached, PluginsLoaded] + dumper.events
                 + (if dumper.failure.Some? then [ErrorLogged(dumper.failure.value)] else [])
                 + [ProcessExited(0)]
  {
    var subs := [LoadPluginsHandler, ExecuteDumperHandler];
    assert subs[..1] == [LoadPluginsHandler];
    assert subs[..1][..0] == [];
    assert InvokeAll(subs[..1][..0], dumper, failing) == Run([], None);
  }

  lemma AppendAssoc(s: seq<Event>, a: seq<Event>, b: seq<Event>)
    ensures s + (a + b) == s + a + b
  {
  }

  /** The static state of `EntryPoint`, with the process it runs in. */
  class EntryPoint {
    /** `Process.GetCurrentProcess().MainModule` */
    const mainModule: ProcessModule
    /** `Process.GetCurrentProcess().Modules`, in enumeration order, as they stand when the intercept fires (mono loaded) */
    const modules: seq<ProcessModule>

    var processModule: Option<ProcessModule>
    var resolver: Option<SymbolTable>
    var onEngineInitialized: seq<Subscriber>
    var outputPath: string
    var projectPath: string
    var versionInfo: Option<FileVersion>
    var afterEverythingLoadedDetour: Option<Detour>
    var playerInitEngineNoGraphicsDetour: Option<Detour>
    var validateDatesDetour: Option<Detour>
    var initializePackageManagerDetour: Option<Detour>

    /** Where the one-shot lifecycle stands. */
    var phase: Phase
    /** Everything observable that has happened so far. */
    var trace: seq<Event>

    /** What `ExecuteDumper` does in this process when the steps in `failing` throw. */
    function DumperRun(failing: set<ExternalStep>): Run {
      ExecuteDumperRun(VersionSourceFor(mainModule, modules), failing)
    }

    /** The state `Main` leaves behind when it reaches the end. */
    ghost predicate Configured()
      reads this`processModule, this`resolver, this`versionInfo, this`onEngineInitialized
      reads this`initializePackageManagerDetour, this`afterEverythingLoadedDetour
      reads this`playerInitEngineNoGraphicsDetour, this`validateDatesDetour
    {
      && StartupRun(mainModule).failure.None?
      && processModule == Some(mainModule)
      && resolver == Some(mainModule.symbols)
      && versionInfo == Some(mainModule.version)
      && onEngineInitialized == [LoadPluginsHandler, ExecuteDumperHandler]
      && initializePackageManagerDetour == PlannedDetour(Decide(mainModule), InitializePackageManagerHook)
      && afterEverythingLoadedDetour == PlannedDetour(Decide(mainModule), AfterEverythingLoadedHook)
      && playerInitEngineNoGraphicsDetour == PlannedDetour(Decide(mainModule), PlayerInitEngineNoGraphicsHook)
      && validateDatesDetour == PlannedDetour(Decide(mainModule), ValidateDatesHook)
    }

    ghost predicate Valid()
      reads this
    {
      match phase
      case Unattached =>
        && processModule.None? && resolver.None? && versionInfo.None? && onEngineInitialized == []
        && initializePackageManagerDetour.None? && afterEverythingLoadedDetour.None?
        && playerInitEngineNoGraphicsDetour.None? && validateDatesDetour.None?
      case StartupFailed(_) => true
      case _ => Configured()
    }

    constructor (mainModule: ProcessModule, modules: seq<ProcessModule>)
      ensures Valid() && phase == Unattached && trace == []
      ensures this.mainModule == mainModule && this.modules == modules
    {
      this.mainModule := mainModule;
      this.modules := modules;
      processModule, resolver, versionInfo := None, None, None;
      onEngineInitialized := [];
      outputPath, projectPath := "", "";
      afterEverythingLoadedDetour, playerInitEngineNoGraphicsDetour := None, None;
      validateDatesDetour, initializePackageManagerDetour := None, None;
      phase := Unattached;
      trace := [];
    }

    method AttachToParentConsole()
      modifies this`trace
      ensures trace == old(trace) + [ConsoleAttached]
    {
      trace := trace + [ConsoleAttached];
    }

    method Fail(f: Failure) returns (r: Option<Failure>)
      modifies this`trace, this`phase
      ensures trace == old(trace) + [ErrorLogged(f)]
      ensures phase == StartupFailed(f) && r == Some(f)
    {
      trace := trace + [ErrorLogged(f)];
      phase := StartupFailed(f);
      r := Some(f);
    }

    /**
     * The opening of `Main`: the main module and its file version are
     * recorded, the console is re-attached (except on 2017.1 and 2017.2)
     * before and after the paths, the resolver and the logger are set up.
     */
    method SetUp(args: EntryPointArgs)
      modifies this`processModule, this`versionInfo, this`outputPath, this`projectPath, this`resolver, this`trace
      ensures trace == old(trace) + ConsoleEvents(mainModule.version)
      ensures processModule == Some(mainModule) && versionInfo == Some(mainModule.version) && resolver == Some(mainModule.symbols)
      ensures outputPath == args.outputPath && projectPath == args.projectPath
    {
      var v := mainModule.version;
      processModule := Some(mainModule);
      versionInfo := Some(v);
      if !(v.major == 2017 && v.minor < 3) {
        AttachToParentConsole();
      }
      outputPath := args.outputPath;
      projectPath := args.projectPath;
      resolver := Some(mainModule.symbols);
      if !(v.major == 2017 && v.minor < 3) {
        AttachToParentConsole();
      }
    }

    /** On 2017 hosts the package-manager start-up is detoured to the stub when its symbol resolves. */
    method InstallPackageManagerStub()
      requires resolver == Some(mainModule.symbols) && initializePackageManagerDetour.None?
      modifies this`initializePackageManagerDetour, this`trace
      ensures initializePackageManagerDetour == PlannedDetour(Decide(mainModule), InitializePackageManagerHook)
      ensures trace == old(trace) + OptionalDetourEvents(InitializePackageManagerHook, PackageManagerTarget(mainModule))
    {
      if mainModule.version.major == 2017 {
        var a := TryResolve(resolver.value, PackageManagerInitializeName(mainModule.ptr64));
        if a.Some? {
          initializePackageManagerDetour := Some(Detour(a.value, InitializePackageManagerHook));
          trace := trace + [DetourAttached(InitializePackageManagerHook, a.value)];
        }
      }
    }

    /** The engine-initialisation path; a missing `PlayerInitEngineNoGraphics` is returned, nothing being attached. */
    method InstallEngineInitHook() returns (init: Result<EngineInit, Failure>)
      requires resolver == Some(mainModule.symbols)
      requires afterEverythingLoadedDetour.None? && playerInitEngineNoGraphicsDetour.None?
      modifies this`afterEverythingLoadedDetour, this`playerInitEngineNoGraphicsDetour, this`trace
      ensures init == EngineInitChoice(mainModule)
      ensures afterEverythingLoadedDetour == PlannedDetour(Decide(mainModule), AfterEverythingLoadedHook)
      ensures playerInitEngineNoGraphicsDetour == PlannedDetour(Decide(mainModule), PlayerInitEngineNoGraphicsHook)
      ensures trace == old(trace) + (if init.Ok? then EngineInitEvents(init.value) else [])
    {
      var t := resolver.value;
      if mainModule.version.major == 3 {
        trace := trace + [FallbackLoaderInitialized];
        init := Ok(FallbackLoader);
      } else {
        var a := TryResolveFirstMatch(t, AfterEverythingLoadedRegex);
        if a.Some? {
          afterEverythingLoadedDetour := Some(Detour(a.value, AfterEverythingLoadedHook));
          trace := trace + [DetourAttached(AfterEverythingLoadedHook, a.value)];
          init := Ok(HookAfterEverythingLoaded(a.value));
        } else {
          var b := ResolveFirstMatch(t, PlayerInitEngineNoGraphicsRegex);
          if b.Err? {
            return Err(MissingSymbol(b.error));
          }
          playerInitEngineNoGraphicsDetour := Some(Detour(b.value, PlayerInitEngineNoGraphicsHook));
          trace := trace + [DetourAttached(PlayerInitEngineNoGraphicsHook, b.value)];
          init := Ok(HookPlayerInitEngineNoGraphics(b.value));
        }
      }
    }

    /** On 4.0 to 4.3 the licence-date check is detoured to the stub; there a missing symbol is returned. */
    method InstallValidateDatesStub() returns (vd: Result<Option<Address>, Failure>)
      requires resolver == Some(mainModule.symbols) && validateDatesDetour.None?
      modifies this`validateDatesDetour, this`trace
      ensures vd == ValidateDatesTarget(mainModule)
      ensures validateDatesDetour == PlannedDetour(Decide(mainModule), ValidateDatesHook)
      ensures trace == old(trace) + (if vd.Ok? then OptionalDetourEvents(ValidateDatesHook, vd.value) else [])
    {
      vd := Ok(None);
      if mainModule.version.major == 4 && mainModule.version.minor <= 3 {
        var c := Resolve(resolver.value, [ValidateDatesName(mainModule.ptr64)]);
        if c.Err? {
          return Err(MissingSymbol(c.error));
        }
        validateDatesDetour := Some(Detour(c.value, ValidateDatesHook));
        trace := trace + [DetourAttached(ValidateDatesHook, c.value)];
        vd := Ok(Some(c.value));
      }
    }

    /** `OnEngineInitialized += PluginManager.LoadPlugins; OnEngineInitialized += ExecuteDumper;` and the host thread resumed. */
    method SubscribeAndResume()
      modifies this`onEngineInitialized, this`trace
      ensures onEngineInitialized == old(onEngineInitialized) + [LoadPluginsHandler, ExecuteDumperHandler]
      ensures trace == old(trace) + SubscriptionEvents
    {
      onEngineInitialized := onEngineInitialized + [LoadPluginsHandler];
      trace := trace + [Subscribed(LoadPluginsHandler)];
      onEngineInitialized := onEngineInitialized + [ExecuteDumperHandler];
      trace := trace + [Subscribed(ExecuteDumperHandler), ThreadResumed];
    }

    /**
     * The rest of `Main` after the package-manager stub: the engine-init
     * intercept, the licence-check stub, the subscriptions and the resumed
     * host thread; a missing required symbol is logged and returned.
     */
    method InstallIntercepts() returns (r: Option<Failure>)
      requires resolver == Some(mainModule.symbols) && onEngineInitialized == []
      requires afterEverythingLoadedDetour.None? && playerInitEngineNoGraphicsDetour.None? && validateDatesDetour.None?
      modifies this`afterEverythingLoadedDetour, this`playerInitEngineNoGraphicsDetour, this`validateDatesDetour
      modifies this`onEngineInitialized, this`trace, this`phase
      ensures r == InstallRun(Decide(mainModule)).failure
      ensures trace == old(trace) + InstallRun(Decide(mainModule)).events
      ensures r.None? ==> phase == Attached && onEngineInitialized == [LoadPluginsHandler, ExecuteDumperHandler]
      ensures r.Some? ==> phase == StartupFailed(r.value) && onEngineInitialized == []
      ensures afterEverythingLoadedDetour == PlannedDetour(Decide(mainModule), AfterEverythingLoadedHook)
      ensures playerInitEngineNoGraphicsDetour == PlannedDetour(Decide(mainModule), PlayerInitEngineNoGraphicsHook)
      ensures validateDatesDetour == if EngineInitChoice(mainModule).Ok? then PlannedDetour(Decide(mainModule), ValidateDatesHook) else None
    {
      ghost var start := trace;
      var init := InstallEngineInitHook();
      if init.Err? {
        r := Fail(init.error);
        return;
      }
      ghost var engine := EngineInitEvents(init.value);
      var vd := InstallValidateDatesStub();
      if vd.Err? {
        r := Fail(vd.error);
        AppendAssoc(start, engine, [ErrorLogged(vd.error)]);
        return;
      }
      ghost var licence := OptionalDetourEvents(ValidateDatesHook, vd.value);
      AppendAssoc(start, engine, licence);
      SubscribeAndResume();
      AppendAssoc(start, engine + licence, SubscriptionEvents);
      phase := Attached;
      r := None;
    }

    /**
     * `Main`: decides and installs the intercepts, registers the
     * subscribers and resumes the host thread; on success the result is None
     * and the installing thread sleeps from then on; a missing required
     * symbol is logged and rethrown, returned here as the failure.
     */
    method Start(args: EntryPointArgs) returns (r: Option<Failure>)
      requires Valid() && phase == Unattached
      modifies this
      ensures Valid()
      ensures r == StartupRun(mainModule).failure
      ensures trace == old(trace) + StartupRun(mainModule).events
      ensures r.None? ==> phase == Attached
      ensures r.Some? ==> phase == StartupFailed(r.value) && onEngineInitialized == []
      ensures processModule == Some(mainModule) && versionInfo == Some(mainModule.version) && resolver == Some(mainModule.symbols)
      ensures outputPath == args.outputPath && projectPath == args.projectPath
      ensures initializePackageManagerDetour == PlannedDetour(Decide(mainModule), InitializePackageManagerHook)
      ensures afterEverythingLoadedDetour == PlannedDetour(Decide(mainModule), AfterEverythingLoadedHook)
      ensures playerInitEngineNoGraphicsDetour == PlannedDetour(Decide(mainModule), PlayerInitEngineNoGraphicsHook)
      ensures validateDatesDetour == if EngineInitChoice(mainModule).Ok? then PlannedDetour(Decide(mainModule), ValidateDatesHook) else None
    {
      ghost var d := Decide(mainModule);
      ghost var start := trace;
      SetUp(args);
      InstallPackageManagerStub();
      ghost var head := ConsoleEvents(d.version) + OptionalDetourEvents(InitializePackageManagerHook, d.packageManager);
      AppendAssoc(start, ConsoleEvents(d.version), OptionalDetourEvents(InitializePackageManagerHook, d.packageManager));
      r := InstallIntercepts();
      AppendAssoc(start, head, InstallRun(d).events);
      if r.None? {
        assert Configured();
      }
    }

    /** `FindProcessModule`: the first module of the process, in enumeration order, whose name matches. */
    method FindProcessModule(re: Regex) returns (r: Result<ProcessModule, Failure>)
      ensures r.Err? <==> FirstMatchingModule(modules, re).None?
      ensures r.Err? ==> r.error == MissingModule(re)
      ensures r.Ok? ==> r.value == FirstMatchingModule(modules, re).value
    {
      var i := 0;
      while i < |modules|
        invariant 0 <= i <= |modules|
        invariant FirstMatchingModule(modules[i..], re) == FirstMatchingModule(modules, re)
      {
        if IsMatch(re, modules[i].moduleName) {
          return Ok(modules[i]);
        }
        assert modules[i..][1..] == modules[i + 1..];
        i := i + 1;
      }
      r := Err(MissingModule(re));
    }

    /**
     * The version lookup inside `ExecuteDumper`: `GameEngineVersion` with the
     * `UnityVersion` constructor, or else the scripting property with the
     * base of the first "mono" module; a missing symbol or module is returned.
     */
    method ReadVersionSource() returns (source: Result<VersionSource, Failure>)
      requires resolver == Some(mainModule.symbols)
      ensures source == VersionSourceFor(mainModule, modules)
    {
      var t := resolver.value;
      var p := mainModule.ptr64;
      var getter := TryResolve(t, GameEngineVersionName(p));
      if getter.Some? {
        var parser := Resolve(t, UnityVersionConstructorNames(p));
        if parser.Err? {
          return Err(MissingSymbol(parser.error));
        }
        return Ok(EngineVersionString(getter.value, parser.value));
      }
      var property := Resolve(t, UnityVersionPropertyNames(p));
      if property.Err? {
        return Err(MissingSymbol(property.error));
      }
      var mono := FindProcessModule(MonoModuleRegex);
      if mono.Err? {
        return Err(mono.error);
      }
      source := Ok(ScriptingProperty(property.value, mono.value.baseAddress));
    }

    /** `ExecuteDumper`, run as the second subscriber. */
    method ExecuteDumper(failing: set<ExternalStep>) returns (failure: Option<Failure>)
      requires phase == Fired && resolver == Some(mainModule.symbols)
      modifies this`trace
      ensures trace == old(trace) + DumperRun(failing).events
      ensures failure == DumperRun(failing).failure
    {
      if InitializePluginsStep in failing {
        return Some(Thrown(InitializePluginsStep));
      }
      trace := trace + [PluginsInitialized];
      var source := ReadVersionSource();
      failure := DumpWith(source, failing);
      AppendAssoc(old(trace), [PluginsInitialized], DumpRun(source, failing).events);
    }

    /** `DumpRun` as it happens: record the version, then dump, stopping at the first step that throws. */
    method DumpWith(source: Result<VersionSource, Failure>, failing: set<ExternalStep>) returns (failure: Option<Failure>)
      requires phase == Fired
      modifies this`trace
      ensures trace == old(trace) + DumpRun(source, failing).events
      ensures failure == DumpRun(source, failing).failure
    {
      if source.Err? {
        return Some(source.error);
      }
      if VersionReadStep in failing {
        return Some(Thrown(VersionReadStep));
      }
      trace := trace + [VersionRead(source.value)];
      if DumpStep in failing {
        return Some(Thrown(DumpStep));
      }
      trace := trace + [Dumped];
      AppendAssoc(old(trace), [VersionRead(source.value)], [Dumped]);
      failure := None;
    }

    /** One entry of the invocation list: `PluginManager.LoadPlugins` or `ExecuteDumper`. */
    method InvokeSubscriber(s: Subscriber, failing: set<ExternalStep>) returns (failure: Option<Failure>)
      requires phase == Fired && resolver == Some(mainModule.symbols)
      modifies this`trace
      ensures trace == old(trace) + SubscriberRun(s, DumperRun(failing), failing).events
      ensures failure == SubscriberRun(s, DumperRun(failing), failing).failure
    {
      match s {
        case LoadPluginsHandler =>
          if LoadPluginsStep in failing {
            failure := Some(Thrown(LoadPluginsStep));
          } else {
            trace := trace + [PluginsLoaded];
            failure := None;
          }
        case ExecuteDumperHandler =>
          failure := ExecuteDumper(failing);
      }
    }

    /** `OnEngineInitialized?.Invoke()`: the subscribers in order, until one throws. */
    method InvokeSubscribers(subs: seq<Subscriber>, failing: set<ExternalStep>) returns (failure: Option<Failure>)
      requires phase == Fired && resolver == Some(mainModule.symbols)
      modifies this`trace
      ensures failure == InvokeAll(subs, DumperRun(failing), failing).failure
      ensures trace == old(trace) + InvokeAll(subs, DumperRun(failing), failing).events
    {
      ghost var start := trace;
      ghost var dumper := DumperRun(failing);
      failure := None;
      var i := 0;
      while i < |subs| && failure.None?
        invariant 0 <= i <= |subs|
        invariant failure == InvokeAll(subs[..i], dumper, failing).failure
        invariant trace == start + InvokeAll(subs[..i], dumper, failing).events
        decreases |subs| - i
      {
        ghost var before := InvokeAll(subs[..i], dumper, failing);
        assert subs[..i + 1][..i] == subs[..i];
        failure := InvokeSubscriber(subs[i], failing);
        AppendAssoc(start, before.events, SubscriberRun(subs[i], dumper, failing).events);
        i := i + 1;
      }
      if failure.Some? {
        FailureStopsInvocation(subs, i, dumper, failing);
      } else {
        assert subs[..i] == subs;
      }
    }

    /**
     * `HandleEngineInitialization`: the intercept has fired; the console is
     * re-attached, the subscribers run in order until one throws, an error
     * is logged, and the `finally` block exits the process with code 0.
     */
    method HandleEngineInitialization(failing: set<ExternalStep>)
      requires phase == Attached && resolver == Some(mainModule.symbols)
      modifies this`phase, this`trace
      ensures phase == Exited(0)
      ensures trace == old(trace) + EngineInitializationRun(onEngineInitialized, DumperRun(failing), failing)
    {
      phase := Fired;
      AttachToParentConsole();
      var failure := InvokeSubscribers(onEngineInitialized, failing);
      ghost var invoked := InvokeAll(onEngineInitialized, DumperRun(failing), failing);
      ghost var logged: seq<Event> := [];
      if failure.Some? {
        logged := [ErrorLogged(failure.value)];
        trace := trace + [ErrorLogged(failure.value)];
      }
      trace := trace + [ProcessExited(0)];
      phase := Exited(0);
      AppendAssoc(old(trace), [ConsoleAttached], invoked.events);
      AppendAssoc(old(trace), [ConsoleAttached] + invoked.events, logged);
      AppendAssoc(old(trace), [ConsoleAttached] + invoked.events + logged, [ProcessExited(0)]);
    }

    /** The `AfterEverythingLoaded` replacement: the original through the trampoline, then the dump and the exit. */
    method AfterEverythingLoaded(app: Address, failing: set<ExternalStep>)
      requires Valid() && phase == Attached && afterEverythingLoadedDetour.Some?
      modifies this`phase, this`trace
      ensures Valid()
      ensures phase == Exited(0)
      ensures trace == old(trace) + [OriginalCalled(AfterEverythingLoadedHook)]
                       + EngineInitializationRun([LoadPluginsHandler, ExecuteDumperHandler], DumperRun(failing), failing)
    {
      assert Configured();
      trace := trace + [OriginalCalled(AfterEverythingLoadedHook)];
      HandleEngineInitialization(failing);
      assert Configured();
    }

    /**
     * The `PlayerInitEngineNoGraphics` replacement: the original through the
     * trampoline, whose result is dropped, then the dump and the exit; the
     * `1` it is written to return would follow the exit.
     */
    method PlayerInitEngineNoGraphics(a: Address, b: Address, failing: set<ExternalStep>) returns (ret: int)
      requires Valid() && phase == Attached && playerInitEngineNoGraphicsDetour.Some?
      modifies this`phase, this`trace
      ensures Valid()
      ensures phase == Exited(0) && ret == 1
      ensures trace == old(trace) + [OriginalCalled(PlayerInitEngineNoGraphicsHook)]
                       + EngineInitializationRun([LoadPluginsHandler, ExecuteDumperHandler], DumperRun(failing), failing)
    {
      assert Configured();
      trace := trace + [OriginalCalled(PlayerInitEngineNoGraphicsHook)];
      HandleEngineInitialization(failing);
      assert Configured();
      ret := 1;
    }

    /** The callback the fallback loader calls on major version 3: no original to forward to. */
    method FallbackLoaderCallback(failing: set<ExternalStep>)
      requires Valid() && phase == Attached && mainModule.version.major == 3
      modifies this`phase, this`trace
      ensures Valid()
      ensures phase == Exited(0)
      ensures trace == old(trace) + EngineInitializationRun([LoadPluginsHandler, ExecuteDumperHandler], DumperRun(failing), failing)
    {
      assert Configured();
      HandleEngineInitialization(failing);
      assert Configured();
    }

    /** The package-manager replacement does nothing. */
    method InitializePackageManager()
      requires initializePackageManagerDetour.Some?
      ensures unchanged(this)
    {
    }

    /** The licence-date replacement reports success (0) whatever the document. */
    method ValidateDates(self: Address, param1: Address) returns (r: int)
      requires validateDatesDetour.Some?
      ensures r == 0
    {
      r := 0;
    }
  }
}
