# Lealone server bootstrap

This project models the start-up sequence of a Lealone server (`org.lealone.main.Lealone`).
The input is a loaded configuration. The server then:

1. checks and publishes `base_dir`;
2. walks the four lists of pluggable engine descriptors in a fixed order: storage, transaction, sql, protocol server;
3. for every enabled descriptor:
   - checks its name;
   - resolves the engine, by registry lookup or by loading the named class and registering the instance;
   - records the category's default engine when none is recorded;
   - injects `host` (protocol servers only) and `base_dir` into the descriptor's parameters when they are absent;
   - initialises the engine;
4. initialises the embedded database;
5. initialises the cluster metadata when an enabled protocol descriptor is the P2P engine;
6. starts the server of every enabled protocol descriptor.

Layout:

- `java_string.dfy` (module `JavaString`): the two `java.lang.String` operations the bootstrap relies on, `trim()` and `equalsIgnoreCase()`.
- `model.dfy` (module `Model`): the values. These are the configuration and its descriptors, engines, the four engine registries, the property store, errors, and the trace of calls the bootstrap makes into code outside the model.
- `bootstrap.dfy` (module `Bootstrap`): every step of the bootstrap as a function from the state before it to the state after it.
- `lealone.dfy` (module `LealoneMain`): class `Lealone`. It holds the mutable configuration (descriptors' parameter maps are extended in place), the registries, the property store and the trace. Its methods, with their loops, do what the source does. Each method is proved to leave exactly the state the matching `Bootstrap` function describes.
- `properties.dfy` (module `Properties`): the guarantees, proved about the `Bootstrap` functions. These cover ordering, skip rules, write-once defaults, parameter injection without overwriting, which failures are fatal, and how many times each collaborator is called.

Collaborator calls become `Event`s appended to a trace:

- `SysProperties.setBaseDir`;
- the engine managers' `getEngine` and `registerEngine`;
- class loading;
- `PluggableEngine.init`;
- `LealoneDatabase.getInstance()`;
- `ClusterMetaData.init`;
- server start.

Every event belongs to a stage, given by `Phase`. Ordering claims say that phases never decrease along the trace. Class loading is a parameter: a map from class name to the engine its instance would be. A name that is absent stands for any exception from `loadUserClass`, `newInstance` or the cast.

## Model

| member | source | states |
|---|---|---|
| `JavaString.Trim` | lealone-main/src/main/java/org/lealone/main/Lealone.java:225 | `trim()` is empty exactly when every character is at most U+0020; otherwise it starts and ends with a character above U+0020 |
| `JavaString.EqualsIgnoreCase` | lealone-main/src/main/java/org/lealone/main/Lealone.java:99 | `equalsIgnoreCase` on a non-null argument: equal lengths, and at each position the characters are equal, or equal once upper-cased, or equal once upper-cased and then lower-cased |
| `Model.IsP2pEngine` | lealone-main/src/main/java/org/lealone/main/Lealone.java:99 | a descriptor is the clustering protocol engine when it is enabled and its non-null name equals the P2P name ignoring case |
| `Model.P2pEngineSpellings` | lealone-main/src/main/java/org/lealone/main/Lealone.java:99 | the ignore-case comparison with "P2P" accepts exactly the names of length three spelled p or P, then 2, then p or P, and only for an enabled descriptor |
| `Model.CheckName` | lealone-main/src/main/java/org/lealone/main/Lealone.java:224-227 | a descriptor passes exactly when its name is non-null and has a character above U+0020; otherwise the error is the category's missing-name error |
| `Model.PutIfAbsent` | lealone-main/src/main/java/org/lealone/main/Lealone.java:233-236 | the key ends up present; an existing value is kept; the given value is added only when the key was absent; no other key changes |
| `Model.InjectHost` | lealone-main/src/main/java/org/lealone/main/Lealone.java:213-215 | `host` is present afterwards iff it was present or listen_address is non-null; an explicit host is kept; otherwise it becomes listen_address; nothing else changes |
| `Model.EnabledOnly` | lealone-main/src/main/java/org/lealone/main/Lealone.java:247-249 | the enabled descriptors of a list, as many as `EnabledCount` says; each enabled descriptor occurs as often as in the list and no disabled one occurs |
| `Model.EnabledOnlyConcat` | lealone-main/src/main/java/org/lealone/main/Lealone.java:248-249 | filtering keeps list order: the enabled descriptors of a concatenation are those of the first list followed by those of the second |
| `LealoneMain.Lealone.GetEngine` | lealone-main/src/main/java/org/lealone/main/Lealone.java:123 | returns the category registry's entry for the name (None when absent) and records the lookup |
| `LealoneMain.Lealone.RegisterEngine` | lealone-main/src/main/java/org/lealone/main/Lealone.java:128 | stores the engine under its declared name in its category's registry and records the registration |
| `LealoneMain.Lealone.InitBaseDir` | lealone-main/src/main/java/org/lealone/main/Lealone.java:107-113 | fails iff base_dir is null or empty (no trimming); on failure nothing changes; otherwise base_dir is published |
| `LealoneMain.Lealone.InitPluggableEngine` | lealone-main/src/main/java/org/lealone/main/Lealone.java:233-239 | puts base_dir into descriptor i's parameters when absent, in the configuration itself, and calls init with the resulting map |
| `LealoneMain.Lealone.ResolveEngine` | lealone-main/src/main/java/org/lealone/main/Lealone.java:149-161 | lookup, then on a miss load and register, then for transaction engines only the fallback to the default transaction engine; state and result are those of `Bootstrap.Resolve` |
| `LealoneMain.Lealone.SetDefaultEngine` | lealone-main/src/main/java/org/lealone/main/Lealone.java:163-164 | sets the category's default-engine property to the engine's name only when it is unset |
| `LealoneMain.Lealone.InjectHostParameter` | lealone-main/src/main/java/org/lealone/main/Lealone.java:213-215 | rewrites protocol descriptor i's parameters in the configuration to `InjectHost` of them |
| `LealoneMain.Lealone.ActivateEngine` | lealone-main/src/main/java/org/lealone/main/Lealone.java:203-216 | default property, host, base_dir and init, in the source's order; state and descriptor are those of `Bootstrap.Activate` |
| `LealoneMain.Lealone.InitEngineDef` | lealone-main/src/main/java/org/lealone/main/Lealone.java:146-167 | one loop iteration; state, error and rewritten descriptor are those of `Bootstrap.InitDef` |
| `LealoneMain.Lealone.InitCategoryEngines` | lealone-main/src/main/java/org/lealone/main/Lealone.java:144-169 | a category's loop; stops at the first error; the loop invariant ties it to `Bootstrap.InitCategory` |
| `LealoneMain.Lealone.InitPluggableEngines` | lealone-main/src/main/java/org/lealone/main/Lealone.java:115-222 | the four loops storage, transaction, sql, protocol server, stopping at the first error; equals `Bootstrap.InitEngines` |
| `LealoneMain.Lealone.FindP2pEngine` | lealone-main/src/main/java/org/lealone/main/Lealone.java:97-104 | the search loop returns true exactly when some enabled protocol descriptor's name equals the P2P name ignoring case |
| `LealoneMain.Lealone.Init` | lealone-main/src/main/java/org/lealone/main/Lealone.java:90-105 | base_dir, engines, database, then cluster metadata when the P2P engine is enabled; equals `Bootstrap.InitAll` |
| `LealoneMain.Lealone.StartProtocolServers` | lealone-main/src/main/java/org/lealone/main/Lealone.java:245-256 | starts the server of each enabled descriptor in order; stops when the registry has no engine under the descriptor's name; equals `Bootstrap.StartServers` |
| `LealoneMain.Lealone.Boot` | lealone-main/src/main/java/org/lealone/main/Lealone.java:52-77 | init, then start, and any error ends the run; equals `Bootstrap.Launch` |
| `Bootstrap.Resolve` | lealone-main/src/main/java/org/lealone/main/Lealone.java:149-161 | registry lookup; on a miss, class load and registration; for transaction engines only, a failed load falls back to a lookup of the default transaction engine. Its properties are `ResolveShape`, `RegistryHitReused`, `LoadedEngineRegistered`, `LoadFailureFatal` and `TransactionLoadFallback` |
| `Bootstrap.InitDef` | lealone-main/src/main/java/org/lealone/main/Lealone.java:121-137 | one loop iteration: skip when disabled, name check, resolution, the not-found error, then activation. Its properties are `DisabledDescriptorSkipped`, `NameCheckedBeforeLookup`, `StepInitAndDefault` and `ParametersInjected` |
| `Bootstrap.Activate` | lealone-main/src/main/java/org/lealone/main/Lealone.java:134-137 | the default-engine property when unset, the `host` (protocol servers) and `base_dir` parameters when absent, then init. Its properties are `ActivateShape` and `ParametersInjected` |
| `Bootstrap.InitFrom` | lealone-main/src/main/java/org/lealone/main/Lealone.java:120-139 | a category's loop from one descriptor on, ending at the first error. Its properties are `InitFromCount`, `InitFromProperties`, `InitFromDefs`, `InitFromErr` and `InitFromStopsAtError` |
| `Bootstrap.InitCategory` | lealone-main/src/main/java/org/lealone/main/Lealone.java:118-140 | a category's loop keeps base_dir and listen_address, and replaces only that category's list by the rewritten descriptors |
| `Bootstrap.InitEngines` | lealone-main/src/main/java/org/lealone/main/Lealone.java:116-222 | initPluggableEngines keeps base_dir; the four categories run in order and the first error ends it. Its properties are `EnginesCount`, `EnginesTrace` and `EnginesStopAtError` |
| `Bootstrap.InitAll` | lealone-main/src/main/java/org/lealone/main/Lealone.java:90-105 | init: the base_dir check, the engines, the database, then the cluster metadata when an enabled protocol descriptor is the P2P engine. Its properties are `InitAllCalls` and `BaseDirCheckedFirst` |
| `Bootstrap.StartServers` | lealone-main/src/main/java/org/lealone/main/Lealone.java:245-256 | startProtocolServers: enabled descriptors in order, a missing engine ending the loop. Its properties are `StartSkipsDisabled`, `StartSucceedsIff`, `StartCount` and `StartStopsAtMissing` |
| `Bootstrap.Launch` | lealone-main/src/main/java/org/lealone/main/Lealone.java:52-77 | main: init then start, any error ending the run. Its properties are `LaunchOrdered`, `CallsInStageOrder`, `LaunchDefaults`, `InitErrorEndsRun` and `EngineErrorEndsRun` |
| `Properties.DisabledDescriptorSkipped` | lealone-main/src/main/java/org/lealone/main/Lealone.java:121 | a disabled descriptor leaves world and descriptor unchanged: no lookup, load, registration, property or init |
| `Properties.NameCheckedBeforeLookup` | lealone-main/src/main/java/org/lealone/main/Lealone.java:122-123 | an enabled descriptor fails with the missing-name error iff its name is null or blank, and then nothing happened; otherwise the very first call is the registry lookup of its name |
| `Properties.RegistryHitReused` | lealone-main/src/main/java/org/lealone/main/Lealone.java:123-137 | on a registry hit the step succeeds; it makes exactly the lookup and one init of the registered engine, and the registries are unchanged |
| `Properties.LoadedEngineRegistered` | lealone-main/src/main/java/org/lealone/main/Lealone.java:124-137 | on a miss with a loadable class the calls are exactly lookup, load, registration under the declared name, then init, and the registry gains that engine |
| `Properties.LoadFailureFatal` | lealone-main/src/main/java/org/lealone/main/Lealone.java:124-131 | for storage, sql and protocol server engines a failed load makes the descriptor's step fail with the not-found error, right after lookup and load and with nothing else done; `EnginesStopAtError` and `EngineErrorEndsRun` show that this error ends the bootstrap |
| `Properties.TransactionLoadFallback` | lealone-main/src/main/java/org/lealone/main/Lealone.java:150-164 | a failed transaction engine load falls back to the registered default transaction engine; it fails iff that engine is not registered; on success it inits that engine and records its name as default unless a default is set |
| `Properties.ParametersInjected` | lealone-main/src/main/java/org/lealone/main/Lealone.java:213-238 | init receives the rewritten map, which has base_dir (the existing value if any, else the configured one), host only for protocol servers and only when absent and listen_address is set, and no other change |
| `Properties.StepInitAndDefault` | lealone-main/src/main/java/org/lealone/main/Lealone.java:134-137 | a step inits exactly one engine of its category iff the descriptor is enabled and the step succeeds; properties are kept, only its own default key may be added, and when added it names that engine |
| `Properties.InitFromStopsAtError` | lealone-main/src/main/java/org/lealone/main/Lealone.java:129-131 | when a descriptor's step fails, the category's loop ends there with that error, visiting no later descriptor and leaving the list as it was |
| `Properties.InitFromCount` | lealone-main/src/main/java/org/lealone/main/Lealone.java:145-169 | a category's loop that succeeds inits one engine per enabled descriptor |
| `Properties.InitFromProperties` | lealone-main/src/main/java/org/lealone/main/Lealone.java:163-164 | a category's loop keeps every property, adds only its own default property, and that property names the first engine the loop initialised |
| `Properties.InitFromDefs` | lealone-main/src/main/java/org/lealone/main/Lealone.java:198-219 | a category's loop keeps every descriptor's name and flag and rewrites no disabled descriptor |
| `Properties.InitFromErr` | lealone-main/src/main/java/org/lealone/main/Lealone.java:173-194 | a category's loop fails only with its own category's missing-name or not-found error |
| `Properties.EnginesCount` | lealone-main/src/main/java/org/lealone/main/Lealone.java:115-222 | a successful initPluggableEngines inits one engine per enabled descriptor of every category |
| `Properties.EnginesTrace` | lealone-main/src/main/java/org/lealone/main/Lealone.java:116-219 | initPluggableEngines makes storage calls, then transaction, then sql, then protocol server calls |
| `Properties.EnginesStopAtError` | lealone-main/src/main/java/org/lealone/main/Lealone.java:116-222 | a missing name or an engine not found in category c ends initPluggableEngines: every call it made belongs to a category up to c, so no later category is touched |
| `Properties.StartSkipsDisabled` | lealone-main/src/main/java/org/lealone/main/Lealone.java:248-249 | starting servers from a list is the same as starting them from its enabled descriptors only |
| `Properties.StartSucceedsIff` | lealone-main/src/main/java/org/lealone/main/Lealone.java:248-252 | start succeeds iff every enabled descriptor names a registered engine; otherwise the error names the first enabled descriptor that does not |
| `Properties.StartStopsAtMissing` | lealone-main/src/main/java/org/lealone/main/Lealone.java:248-252 | at the first enabled descriptor whose engine is not registered, start fails naming that descriptor, having started exactly one server per enabled descriptor before it |
| `Properties.StartCount` | lealone-main/src/main/java/org/lealone/main/Lealone.java:245-256 | a successful start starts one server per enabled descriptor |
| `Properties.BaseDirCheckedFirst` | lealone-main/src/main/java/org/lealone/main/Lealone.java:91-92 | the run fails with the base_dir error iff base_dir is null or empty, and then makes no call and changes nothing; otherwise its first call publishes base_dir |
| `Properties.BlankBaseDirAccepted` | lealone-main/src/main/java/org/lealone/main/Lealone.java:108 | a base_dir of one space is not refused and is published |
| `Properties.LaunchOrdered` | lealone-main/src/main/java/org/lealone/main/Lealone.java:63-68 | the phases of the calls of a run never decrease: base_dir, the four engine categories, database, cluster, server start |
| `Properties.CallsInStageOrder` | lealone-main/src/main/java/org/lealone/main/Lealone.java:90-105 | inits come category by category and all precede the database init; the database init precedes the cluster init, which precedes every server start |
| `Properties.LaunchDefaults` | lealone-main/src/main/java/org/lealone/main/Lealone.java:134-190 | a run never overwrites or removes a property and adds only default-engine properties; each names the first engine of its category initialised in the run; protocol servers have none |
| `Properties.ClusterInitAtMostOnce` | lealone-main/src/main/java/org/lealone/main/Lealone.java:97-104 | cluster metadata init happens once iff init succeeds and an enabled protocol descriptor is the P2P engine (ignoring case), and otherwise never |
| `Properties.InitAllCalls` | lealone-main/src/main/java/org/lealone/main/Lealone.java:90-105 | init calls the database init once iff it succeeds, the cluster init as above, and starts no server |
| `Properties.InitErrorEndsRun` | lealone-main/src/main/java/org/lealone/main/Lealone.java:73-76 | a failing init ends main with init's result: no database init, no cluster metadata init and no server start |
| `Properties.EngineErrorEndsRun` | lealone-main/src/main/java/org/lealone/main/Lealone.java:73-76 | when main fails with category c's missing-name or not-found error, its result is init's and every call it made is the base_dir publication or a call of a category up to c: no later category, database, cluster metadata or server call |
| `Properties.LaunchInits` | lealone-main/src/main/java/org/lealone/main/Lealone.java:116-222 | a successful run inits one engine per enabled descriptor of each category |
| `Properties.LaunchStarts` | lealone-main/src/main/java/org/lealone/main/Lealone.java:241-256 | a successful run inits the database once and starts one server per enabled protocol descriptor |
| `Properties.ServersStartIff` | lealone-main/src/main/java/org/lealone/main/Lealone.java:246-253 | after a successful init the run succeeds iff every enabled protocol descriptor names an engine registered by then |

## Left out

- Logging and the timing measurements: they only observe.
- `loadConfig`, the loader class chosen by reflection, and YAML parsing. The configuration is an input value, and a null descriptor list is an empty one.
- The internals of the engine managers. A registry is a plain map keyed by the engine's declared `getName()`, matched exactly; any case folding the managers may do is not modelled. Their source is not part of this model.
- The definitions of `DEFAULT_TRANSACTION_ENGINE_NAME` and `P2pServerEngine.NAME`: they live in files that are not part of this model. Their values are taken to be "AMTE" and "P2P".
- `JavaString.ToUpper` and `JavaString.ToLower`: only ASCII letters are mapped, so `EqualsIgnoreCase` is not Java's comparison for arbitrary strings. The only comparison the bootstrap makes is against "P2P", and there the model is exact: no character but p and P has P or p as its upper- or lower-case form in Java, and 2 has no case (`Model.P2pEngineSpellings`).
- What `init`, `LealoneDatabase`, `ClusterMetaData` and server start do inside, and any exception they throw. Each of these is one trace event and always returns.
- Server encryption options, shutdown hooks, `System.exit` and the server threads. A run ends with an error value instead of exiting.
- The exception message texts. Errors are values that say which check failed.
- Start: the registry lookups made at start are not recorded as trace events. A missing engine, which is a NullPointerException in the source, is the error `ServerEngineMissing`.
- Starting servers stops at the first missing engine, as the source does. The model does not say whether a descriptor loaded by class name (and so registered under a different `getName()`) can be found at start; that depends on the registry code, which is not part of this model.
