# TypeTreeDumper core, modelled in Dafny

TypeTreeDumper is injected into a suspended Unity editor or player. Its
entry point `EntryPoint.Main` does four things:

- it looks up engine functions in the executable's debug symbols;
- it detours one engine start-up function (or installs a fallback loader on
  Unity 3), and stubs out the package manager on 2017 builds and the licence
  check on 4.0 to 4.3;
- it registers two subscribers, `PluginManager.LoadPlugins` and
  `ExecuteDumper`;
- it resumes the host thread.

When the engine reaches the hooked function, the replacement calls the
original through its trampoline and runs the subscribers. The `finally`
block then exits the process with code 0. The model reads it as running even
when a subscriber throws (see "## Left out"). `ExecuteDumper` works out where to
read the engine's version from and then dumps the type trees. Two smaller
pieces of that layer are modelled as well:

- `TypeTree.V3` builds the managed node list over the host's node array;
- `NativeObject` picks a memory-layout variant by Unity version.

The model has six modules:

- `Wrappers`: `Option` and `Result`; a C# exception becomes an `Err` value.
- `Symbols`: the symbol resolver as its callers use it. The image's symbols
  form an ordered table of (name, address) pairs.
  - An exact lookup (`TryResolve`) yields the first symbol of that name.
  - `Resolve` with several names yields the first alternative that resolves,
    and fails with `SymbolNotFound` when none does.
  - A regex lookup (`TryResolveFirstMatch`, `ResolveFirstMatch`) yields the
    first symbol, in table order, whose name matches.
  - Only the two regex shapes the start-up code builds are modelled. The
    first is `Regex.Escape(stem + "@") + "*"`. There the star repeats only
    the final `@`, and .NET's `IsMatch` is unanchored. So the pattern matches
    exactly the names that *contain* the stem without its trailing `@`, which
    is what `StemThenRepeat` states. The second is `^mono` with
    `IgnoreCase`.
- `Versions`: `UnityVersion` and the executable's file version.
- `Startup` (`TypeTreeDumper/EntryPoint.cs`), in two parts.
  - Pure functions compute what `Main` decides from the host executable and
    how the run unfolds: `PackageManagerTarget`, `EngineInitChoice`,
    `ValidateDatesTarget`, `InstallRun`, `RunStartup`, `VersionSourceFor`,
    `ExecuteDumperRun`, `InvokeAll` and `EngineInitializationRun`.
  - The class `EntryPoint` holds the static fields (the module, the
    resolver, the four detours, the subscriber list) plus a lifecycle
    `phase` (Unattached, Attached, Fired, Exited, or StartupFailed) and the
    `trace` of observable events.
  - Its methods change that state step by step, in the source's order, and
    each is proved against the functions above.
  - The foreign steps that may throw (loading plugins, initialising plugins,
    reading the version, running the dump) are named by a `failing` set
    handed to the intercept.
  - `C# Main` is modelled by the method `Start`.
- `TypeTrees` (`Unity/TypeTree.V3.cs`):
  - `CreateNodes` allocates the managed array and fills it slot by slot from
    the host's shareable data;
  - the `V3` constructor calls the host's `TypeTree` constructor exactly
    once, with the resolved `kMemTypeTree` label, and then builds the nodes.
- `NativeObjects` (`Unity/NativeObject/NativeObject.cs`):
  - the constructor rejects a null pointer, then takes its single version
    branch;
  - the properties forward to the chosen variant;
  - `Dispose` hands the destroy decision to the factory.

## Model

| member | source | states |
|---|---|---|
| Symbols.TryResolve | TypeTreeDumper/EntryPoint.cs:69-73 | An optional lookup finds nothing exactly when no symbol has the name; otherwise it gives the address of the first symbol of that name in table order |
| Symbols.Lookups | TypeTreeDumper/EntryPoint.cs:134-137 | One exact lookup per alternative name, in the order the names are given, entry k being the lookup of name k |
| Symbols.FirstSome | TypeTreeDumper/EntryPoint.cs:134-137 | The first present entry from a given position; none exactly when every entry from there on is absent |
| Symbols.Resolve | TypeTreeDumper/EntryPoint.cs:134-137 | A required lookup fails with SymbolNotFound(names) exactly when no alternative resolves; otherwise it gives the first resolving alternative's address |
| Symbols.TryResolveFirstMatch | TypeTreeDumper/EntryPoint.cs:79-83 | A regex lookup finds nothing exactly when no symbol matches; otherwise it gives the first matching symbol in table order |
| Symbols.ResolveFirstMatch | TypeTreeDumper/EntryPoint.cs:86-89 | The required regex lookup fails with NoSymbolMatches exactly when the optional one finds nothing, and otherwise agrees with it |
| Symbols.FullLiteralPrefixMatches | TypeTreeDumper/EntryPoint.cs:79 | Every name that starts with the escaped literal, trailing '@' included, is matched by the regex built from it |
| Symbols.ContainsAtOffset | TypeTreeDumper/EntryPoint.cs:79 | The regex match is unanchored: a name holding the stem at any offset is matched |
| Symbols.SecondAlternativeResolves | TypeTreeDumper/EntryPoint.cs:134-137 | When the 64-bit constructor name is absent and the 32-bit one present, the two-name lookup returns the 32-bit one's address |
| Versions.LessIsStrictTotalOrder | Unity/NativeObject/NativeObject.cs:23 | The version order that the constructor's branch relies on is irreflexive, transitive and total |
| NativeObjects.SelectLayout | Unity/NativeObject/NativeObject.cs:23-30 | Versions below 5.0 select V1 and all others select V5_0, in both directions |
| NativeObjects.SelectionMonotone | Unity/NativeObject/NativeObject.cs:23-30 | Layout selection is monotone in the version: once 5.0 is reached, later versions never go back to V1 |
| NativeObjects.NativeObject.constructor | Unity/NativeObject/NativeObject.cs:23-32 | The variant wraps ptr with the layout the version selects, every property reads the object at ptr, and factory and persistentTypeID are stored as given |
| NativeObjects.NativeObject.Create | Unity/NativeObject/NativeObject.cs:18-33 | A null ptr raises ArgumentNullException("ptr") and produces no object; any other ptr gives a fresh object as the constructor describes |
| NativeObjects.NativeObject.InstanceID | Unity/NativeObject/NativeObject.cs:14 | Forwards to the variant; the constructor's ReadsThrough(ptr) states it is the instance id of the object at ptr |
| NativeObjects.NativeObject.Pointer | Unity/NativeObject/NativeObject.cs:16 | Forwards to the variant; the constructor's ReadsThrough(ptr) states it is ptr itself |
| NativeObjects.NativeObject.TemporaryFlags | Unity/NativeObject/NativeObject.cs:43 | Forwards to the variant; the constructor's ReadsThrough(ptr) states it is the temporary flags of the object at ptr |
| NativeObjects.NativeObject.HideFlags | Unity/NativeObject/NativeObject.cs:45 | Forwards to the variant; the constructor's ReadsThrough(ptr) states it is the hide flags of the object at ptr |
| NativeObjects.NativeObject.IsPersistent | Unity/NativeObject/NativeObject.cs:47 | Forwards to the variant; the constructor's ReadsThrough(ptr) states it is the persistence flag of the object at ptr |
| NativeObjects.NativeObject.CachedTypeIndex | Unity/NativeObject/NativeObject.cs:49 | Forwards to the variant; the constructor's ReadsThrough(ptr) states it is the cached type index of the object at ptr |
| NativeObjects.NativeObject.Dispose | Unity/NativeObject/NativeObject.cs:35-41 | The factory always receives exactly one destroy request for this object with its stored type id, and no field of the object changes |
| TypeTrees.Wrapped | Unity/TypeTree.V3.cs:40-41 | One V2 wrapper per native node, same length, wrapper i around node i |
| TypeTrees.WrappedInjective | Unity/TypeTree.V3.cs:38-43 | The wrapped list determines the native node sequence, so nothing is dropped, duplicated or reordered |
| TypeTrees.V3.CreateNodes | Unity/TypeTree.V3.cs:36-44 | A fresh array of exactly Data->Nodes.Size nodes, node i wrapping native node i, all sharing owner, empty for an empty native array; the shareable data is only read |
| TypeTrees.V3.constructor | Unity/TypeTree.V3.cs:23-29 | Exactly one host constructor call, with the resolved address and label, then the node list built over the tree it wrote |
| TypeTrees.V3.StringBuffer | Unity/TypeTree.V3.cs:16 | The string buffer of the tree the host wrote; V3.Create states it is the host's own buffer |
| TypeTrees.V3.Create | Unity/TypeTree.V3.cs:23-29 | Resolves the constructor, then the kMemTypeTree label; a missing symbol fails before the host is called, with the constructor's error when both are missing; on success StringBuffer is the host's own buffer and the node list wraps the host's nodes in order |
| Startup.PackageManagerTarget | TypeTreeDumper/EntryPoint.cs:67-74 | The package-manager decision; its meaning is stated by PackageManagerTargetSpec |
| Startup.EngineInitChoice | TypeTreeDumper/EntryPoint.cs:76-90 | The engine-initialisation decision; its priority order and failure case are stated by EngineInitPriority |
| Startup.ValidateDatesTarget | TypeTreeDumper/EntryPoint.cs:92-98 | The licence-check decision; its meaning is stated by ValidateDatesTargetSpec |
| Startup.InstallRun | TypeTreeDumper/EntryPoint.cs:76-109 | The run after the package-manager stub; EntryPoint.InstallIntercepts is proved against it |
| Startup.RunStartup | TypeTreeDumper/EntryPoint.cs:46-110 | The whole start-up run from the decisions; its properties are stated by ConsoleAttachedIff, PackageManagerEventIff, StartupFailsIff, ExactlyOneEngineInitPath, ValidateDatesEventIff and ResumeFollowsSubscription |
| Startup.StartupRun | TypeTreeDumper/EntryPoint.cs:46-110 | The start-up run of a given host executable; EntryPoint.Start is proved against it |
| Startup.VersionSourceFor | TypeTreeDumper/EntryPoint.cs:132-151 | Where the engine version is read from; its priority order is stated by VersionSourcePriority, and EntryPoint.ReadVersionSource is proved against it |
| Startup.ExecuteDumperRun | TypeTreeDumper/EntryPoint.cs:123-154 | The dumper's run for a version source and a set of throwing steps; its order is stated by DumperStepsInOrder, and EntryPoint.ExecuteDumper is proved against it |
| Startup.DumpRun | TypeTreeDumper/EntryPoint.cs:132-153 | The dumper's run after the plugins are initialised; EntryPoint.DumpWith is proved against it and DumperStepsInOrder states its order |
| Startup.DumperStepsInOrder | TypeTreeDumper/EntryPoint.cs:123-154 | The dump completes exactly when the version source is found and no step throws; otherwise the events are a proper prefix of plugins-initialised, version-read, dumped (only plugins-initialised when the version source is missing), and the failure is the first failing step in source order |
| Startup.InvokeAll | TypeTreeDumper/EntryPoint.cs:188 | The subscribers' run; its stopping and ordering are stated by FailureStopsInvocation, InvokeAllNeverExits and SubscribersRunInOrder |
| Startup.EngineInitializationRun | TypeTreeDumper/EntryPoint.cs:183-199 | The intercept's run; its single final exit is stated by ExitIsFinal |
| Startup.PackageManagerTargetSpec | TypeTreeDumper/EntryPoint.cs:67-74 | The package-manager target exists exactly on major 2017 when a symbol of that name exists, and it is that symbol's address |
| Startup.EngineInitPriority | TypeTreeDumper/EntryPoint.cs:76-90 | In priority order: the fallback loader exactly on major 3; otherwise the first AfterEverythingLoaded match; otherwise the first PlayerInitEngineNoGraphics match. It fails, with NoSymbolMatches, exactly when neither matches |
| Startup.ValidateDatesTargetSpec | TypeTreeDumper/EntryPoint.cs:92-98 | The licence-check target is wanted exactly on 4.0 to 4.3; there a missing symbol is a SymbolNotFound error, and otherwise the address is the exact lookup's |
| Startup.ConsoleAttachedIff | TypeTreeDumper/EntryPoint.cs:53-65 | The console is re-attached during start-up exactly when the host is not 2017.1 or 2017.2 |
| Startup.PackageManagerEventIff | TypeTreeDumper/EntryPoint.cs:67-74 | The package-manager detour appears in the run exactly when the decision names that address |
| Startup.PackageManagerDetourIff | TypeTreeDumper/EntryPoint.cs:67-74 | The package-manager detour is attached exactly on 2017 hosts whose symbol resolves, and its absence never makes start-up fail |
| Startup.StartupFailsIff | TypeTreeDumper/EntryPoint.cs:76-109 | Start-up fails exactly when PlayerInitEngineNoGraphics is needed and missing, or the licence-check symbol is missing on 4.0 to 4.3 |
| Startup.ExactlyOneEngineInitPath | TypeTreeDumper/EntryPoint.cs:76-90 | A successful start-up sets up exactly one engine-initialisation path |
| Startup.ValidateDatesEventIff | TypeTreeDumper/EntryPoint.cs:92-98 | On success, a licence-check detour appears in the run exactly when the decision names one |
| Startup.ValidateDatesDetourIff | TypeTreeDumper/EntryPoint.cs:92-98 | On success, the licence-check detour is attached exactly on 4.0 to 4.3 |
| Startup.ResumeFollowsSubscription | TypeTreeDumper/EntryPoint.cs:100-109 | On success the run ends with LoadPlugins subscribed, then ExecuteDumper, then the thread resumed; a failed run never resumes the thread and ends with its error logged |
| Startup.FirstMatchingModule | TypeTreeDumper/EntryPoint.cs:112-121 | The first module in enumeration order whose name matches; none exactly when no module matches |
| Startup.VersionSourcePriority | TypeTreeDumper/EntryPoint.cs:132-151 | GameEngineVersion is used whenever it resolves, and then one of the two UnityVersion constructor names is required; only otherwise is the scripting property used, which needs its symbol and a "mono" module, the first such one |
| Startup.FailureStopsInvocation | TypeTreeDumper/EntryPoint.cs:188 | Once a subscriber has thrown, no later subscriber runs |
| Startup.InvokeAllNeverExits | TypeTreeDumper/EntryPoint.cs:183-199 | Running the subscribers never exits the process by itself |
| Startup.ExitIsFinal | TypeTreeDumper/EntryPoint.cs:183-199 | The intercept always ends with exit code 0 as its last and only exit, and an escaping error is logged right before it |
| Startup.SubscribersRunInOrder | TypeTreeDumper/EntryPoint.cs:100-101 | Plugins are loaded before the dumper runs, and a throwing plugin loader keeps the dumper from running at all |
| Startup.EntryPoint.constructor | TypeTreeDumper/EntryPoint.cs:17-35 | The static fields start unset, with the lifecycle Unattached and nothing observed |
| Startup.EntryPoint.AttachToParentConsole | TypeTreeDumper/EntryPoint.cs:37-44 | Records one console re-attachment |
| Startup.EntryPoint.Fail | TypeTreeDumper/EntryPoint.cs:105-109 | The error is logged, start-up ends in StartupFailed, and the error is passed on |
| Startup.EntryPoint.SetUp | TypeTreeDumper/EntryPoint.cs:50-65 | Records the main module, its version, the paths and the resolver, re-attaching the console twice unless the host is 2017.1 or 2017.2 |
| Startup.EntryPoint.InstallPackageManagerStub | TypeTreeDumper/EntryPoint.cs:67-74 | Leaves the package-manager detour field and the trace as the start-up plan prescribes |
| Startup.EntryPoint.InstallEngineInitHook | TypeTreeDumper/EntryPoint.cs:76-90 | Returns the planned engine-initialisation choice and sets exactly the planned detour field; a missing symbol attaches nothing |
| Startup.EntryPoint.InstallValidateDatesStub | TypeTreeDumper/EntryPoint.cs:92-98 | Returns the planned licence-check target and sets the detour field as planned; a missing symbol attaches nothing |
| Startup.EntryPoint.SubscribeAndResume | TypeTreeDumper/EntryPoint.cs:100-102 | Appends LoadPlugins and then ExecuteDumper to the subscriber list, then resumes the host thread |
| Startup.EntryPoint.InstallIntercepts | TypeTreeDumper/EntryPoint.cs:76-109 | The engine-init intercept, the licence-check stub, the subscriptions and the resume produce exactly the install run's events and failure, and set the detour fields as planned |
| Startup.EntryPoint.Start | TypeTreeDumper/EntryPoint.cs:46-110 | The observed events and the failure are exactly those of the start-up run; every detour field holds its planned value; on success the lifecycle is Attached with the class invariant; on failure it is StartupFailed with no subscriber registered |
| Startup.EntryPoint.FindProcessModule | TypeTreeDumper/EntryPoint.cs:112-121 | Returns the first matching module in enumeration order, or MissingModule(regex) exactly when none matches |
| Startup.EntryPoint.ReadVersionSource | TypeTreeDumper/EntryPoint.cs:132-151 | The version lookup returns exactly the source the priority function prescribes, or its missing symbol or module |
| Startup.EntryPoint.ExecuteDumper | TypeTreeDumper/EntryPoint.cs:123-154 | Initialises the plugins, reads the version, dumps; stops at the first step that throws; the trace and the failure are those of the dumper run |
| Startup.EntryPoint.DumpWith | TypeTreeDumper/EntryPoint.cs:132-153 | After the plugins are initialised: records the version read and the dump, stopping at the first step that throws; the trace and failure are exactly DumpRun's |
| Startup.EntryPoint.InvokeSubscriber | TypeTreeDumper/EntryPoint.cs:100-101 | One subscriber, LoadPlugins or ExecuteDumper, produces exactly its run |
| Startup.EntryPoint.InvokeSubscribers | TypeTreeDumper/EntryPoint.cs:188 | The subscribers run in registration order until one throws, matching InvokeAll |
| Startup.EntryPoint.HandleEngineInitialization | TypeTreeDumper/EntryPoint.cs:183-199 | Re-attaches the console, runs the subscribers, logs an escaping error, and always ends in Exited(0) |
| Startup.EntryPoint.AfterEverythingLoaded | TypeTreeDumper/EntryPoint.cs:176-181 | The original runs first, through the trampoline; then the registered subscribers run and the process exits with 0 |
| Startup.EntryPoint.PlayerInitEngineNoGraphics | TypeTreeDumper/EntryPoint.cs:168-174 | The original runs first; then the subscribers run and the process exits with 0; the written return value is 1 whatever the original returned |
| Startup.EntryPoint.FallbackLoaderCallback | TypeTreeDumper/EntryPoint.cs:201-205 | On major 3, with no original to call: the subscribers run and the process exits with 0 |
| Startup.EntryPoint.InitializePackageManager | TypeTreeDumper/EntryPoint.cs:156-159 | The package-manager replacement changes nothing |
| Startup.EntryPoint.ValidateDates | TypeTreeDumper/EntryPoint.cs:161-166 | The licence-date replacement always reports success (0) |

## Left out

- The debug-information symbol resolver is not part of this model. The image's symbols are an ordered table, an exact lookup compares names for equality, and the order of the table stands for the resolver's enumeration order.
- Only the two regular-expression shapes the start-up code builds are modelled, not a regex engine. Case-insensitive matching folds ASCII letters only, with no culture-specific folding.
- Versions.Less: `UnityVersion` parsing and its `<` operator are not part of this model. The order is assumed to be lexicographic on (major, minor, patch).
- Detour installation, trampoline patching and the unmanaged calls are reduced to events (`DetourAttached`, `OriginalCalled`), because they are native code patching.
- Startup.EntryPoint.PlayerInitEngineNoGraphics: the original's return value is not modelled, because the source discards it.
- `FreeConsole`/`AttachConsole` and the stream set-up, `ConsoleLogger.Initialize` (with the silent and verbose flags) and the log messages are reduced to the `ConsoleAttached` and `ErrorLogged` events. They are console I/O.
- Startup.EntryPoint.Start: the model ends the success path in phase Attached instead of `Thread.Sleep(Timeout.Infinite)`, because the thread never wakes. `ResumeThread` becomes the `ThreadResumed` event, and concurrency with the host is not modelled.
- Startup.EntryPoint.Start: the model raises no exception other than a missing required symbol. Exceptions raised by the process APIs, the resolver's construction or the fallback loader's file I/O are not modelled.
- `InitializeFallbackLoader` (directory creation, file copy, environment variable) becomes the `FallbackLoaderInitialized` event, because it is filesystem I/O.
- Startup.EntryPoint.ExecuteDumper: only where the version comes from is modelled. Calling the getter, `ParseUnityVersion`, `NativeLibrary.GetExport(mono, "mono_string_to_utf8")`, `Marshal.PtrToStringAnsi`, `new UnityVersion(...)`, `DumperEngine`, `PluginManager` and `Dumper.Execute` are foreign runtime calls. The parsed `UnityVersion` value is not modelled. Three steps stand for these calls, and the `failing` set says which of them throw:
  - initialising the plugins (`InitializePluginsStep`, event `PluginsInitialized`);
  - reading and parsing the version (`VersionReadStep`, event `VersionRead`), which covers every throwing call on either version path;
  - the dump (`DumpStep`, event `Dumped`).
- Startup.EntryPoint.HandleEngineInitialization: `Environment.Exit(0)` becomes phase Exited(0) and a `ProcessExited(0)` event. When a subscriber throws, the `catch` block logs and rethrows out of an `[UnmanagedCallersOnly]` callback. Whether the `finally` block still runs then is up to the .NET runtime, which may instead end the process with a non-zero code. The model assumes the `finally` block runs, and `ExitIsFinal` and the handlers' contracts rest on that assumption.
- NativeObjects.NativeObject: the `factory` is a non-null reference in the model. The source accepts a null factory (NativeObject.cs:31), and `Dispose` would then throw `NullReferenceException` (NativeObject.cs:39); that path is not modelled.
- TypeTrees.V3.CreateNodes: the host is assumed to write a non-null `Tree.Data`. A null one would make the source fault at TypeTree.V3.cs:38; the model has no null tree data.
- `NameMangling.Ptr64` is a field of the process module (`ptr64`), because it depends on the build's bitness.
- NativeObjects.NativeObjectFactory.DestroyIfNotSingletonOrPersistent: the factory's singleton/persistent test is not shown. The model records every request it receives.
- The `V1`, `V5_0` and `TypeTreeNode.V2` byte layouts, raw pointer reads and `GetPinnableReference` are memory-layout details. The host object is its logical header fields (`NativeHeader`), and a native node is a record of its fields.
- TypeTrees.HostRuntime.InvokeTypeTreeConstructor: the host's `TypeTree` constructor is not part of this model. It stands for the tree the host writes, and the call is recorded.
- `DynamicArray` is modelled as a Dafny `array`, and `MemLabelId*` as an address.
