# YAnalyticsFirebase in Dafny

This project models the core of YAnalyticsFirebase. That is a Swift adapter
that sends the backend-neutral `AnalyticsEvent`s of the YAnalytics package to
Firebase Analytics. The model has three parts:

- **`FirebaseEventMapping`** (`event_mapping.dfy`). An immutable
  `{name, topLevelKey}` pair whose fields default to `""`. It comes with the
  static `defaultScreenView` mapping and the one-entry `default` table.
- **`FirebaseAnalyticsConfiguration`** (`configuration.dfy`). A closed
  three-way selector, `ConfigureParameters`: no override, options only, or
  name and options. It has the derived `name` and `options` accessors, the
  three initializers, the static `default`, and the mapping table stored as
  given.
- **`FirebaseAnalyticsEngine`** (`engine.dfy`). Its constructor stores the
  mappings. It then configures the selected Firebase app only if the global
  registry does not hold that app yet. `track(event:)` makes exactly one
  backend call per event.

Firebase itself is modelled as an abstract sink (`firebase_sdk.dfy`), a class
`Firebase` with three parts:
- the app registry, a set of app identities (the default app is `None`, a
  named app is `Some(name)`);
- a log of `FirebaseApp.configure` calls;
- a log of `Analytics.logEvent` / `Analytics.setUserProperty` calls.

`Firebase.Configure` requires that the app is not yet registered. This is the
model's reading of FirebaseCore's rule that an app must not be configured
twice, and it is why the engine's check before configuring is needed for
the proof.

Every engine operation is also stated as a pure function:
- `Dispatch` is the call that `track` makes;
- `RegistryAfter` and `ConfigureStep` are the registry and the configure
  calls after one construction.

The class methods are proved against these functions. Lemmas then prove what
the source promises about them:
- the empty-table fallback;
- that the table is read only for screen views;
- idempotent construction;
- that over any sequence of constructions each missing app is configured
  exactly once.

`wrappers.dfy` models Swift's `Optional`, the dictionary subscript and `??`.
`yanalytics.dfy` declares the parts of the external YAnalytics package that
are used:
- `AnalyticsEvent`;
- `screenViewKey`, a constant whose value is left open;
- Swift's `Any`, modelled as `AnyValue<V>`: either a `String` or an opaque
  `V`. The screen-view payload `[key: screenName]` and a generic event's
  parameters therefore share one type.

Three details of the Swift code that the model keeps:
- With an empty mapping table, a screen view still uses `defaultScreenView`
  (`FirebaseAnalyticsEngine.swift:59`).
- `setUserProperty` takes the value first and the name second
  (`FirebaseAnalyticsEngine.swift:64`). `UserPropertySet(value, forName)`
  keeps that order.
- The code does not require `screenViewKey` to differ from a generic event's
  name, and the model does not assume it.

## Model

| member | source | states |
|---|---|---|
| EventMapping.InitReadsBack | Sources/YAnalyticsFirebase/FirebaseEventMapping.swift:23-26 | `init(name: X, topLevelKey: Y)` reads back `name == X` and `topLevelKey == Y` |
| EventMapping.InitDefaults | Sources/YAnalyticsFirebase/FirebaseEventMapping.swift:23 | omitted arguments are `""`; empty strings are accepted as they are |
| EventMapping.EqualityIsStructural | Sources/YAnalyticsFirebase/FirebaseEventMapping.swift:13-17 | two mappings are equal iff their names and their top-level keys are equal |
| EventMapping.DefaultScreenViewFields | Sources/YAnalyticsFirebase/FirebaseEventMapping.swift:31-34 | `defaultScreenView` is `{screenViewKey, "screenName"}` |
| EventMapping.DefaultTableContents | Sources/YAnalyticsFirebase/FirebaseEventMapping.swift:37-39 | the default table has exactly the key `screenViewKey`, mapped to `defaultScreenView` |
| Configuration.FirebaseAnalyticsConfiguration.Name | Sources/YAnalyticsFirebase/FirebaseAnalyticsConfiguration.swift:24-35 | `name` is present iff the override is name-and-options, is that name, and is never present without `options` |
| Configuration.FirebaseAnalyticsConfiguration.Options | Sources/YAnalyticsFirebase/FirebaseAnalyticsConfiguration.swift:37-49 | `options` is absent iff no override is chosen, and otherwise is the override's options |
| Configuration.FirebaseAnalyticsConfiguration.Init | Sources/YAnalyticsFirebase/FirebaseAnalyticsConfiguration.swift:59-64 | `init(mappings:)` gives `name == nil`, `options == nil` and the mappings exactly as passed (the empty table included) |
| Configuration.FirebaseAnalyticsConfiguration.InitWithOptions | Sources/YAnalyticsFirebase/FirebaseAnalyticsConfiguration.swift:73-79 | `init(options: O, mappings:)` gives `name == nil`, `options == O` and the mappings exactly as passed |
| Configuration.FirebaseAnalyticsConfiguration.InitWithNameAndOptions | Sources/YAnalyticsFirebase/FirebaseAnalyticsConfiguration.swift:87-94 | `init(name: N, options: O, mappings:)` gives `name == N`, `options == O` and the mappings exactly as passed |
| Configuration.FirebaseAnalyticsConfiguration.Default | Sources/YAnalyticsFirebase/FirebaseAnalyticsConfiguration.swift:96-97 | `default` has no override, no name, no options and the default mapping table |
| Configuration.OmittedMappingsAreDefault | Sources/YAnalyticsFirebase/FirebaseAnalyticsConfiguration.swift:59-94 | each initializer called without `mappings` holds `FirebaseEventMapping.default` |
| Configuration.AccessorsDetermineConfiguration | Sources/YAnalyticsFirebase/FirebaseAnalyticsConfiguration.swift:15-52 | `name`, `options` and `mappings` together determine the configuration: the accessors lose no information about the selector |
| Configuration.EveryConfigurationIsInitialized | Sources/YAnalyticsFirebase/FirebaseAnalyticsConfiguration.swift:59-94 | every configuration is the result of the initializer for its own override |
| Wrappers.Option.GetOr | Sources/YAnalyticsFirebase/FirebaseAnalyticsEngine.swift:59 | `x ?? y` is the wrapped value when present and `y` otherwise |
| Wrappers.Lookup | Sources/YAnalyticsFirebase/FirebaseAnalyticsEngine.swift:59 | a dictionary subscript is present iff the key is in the table, and is then its entry |
| FirebaseSdk.Firebase.App | Sources/YAnalyticsFirebase/FirebaseAnalyticsEngine.swift:35 | `FirebaseApp.app(...) != nil` iff that app is in the registry; nothing changes |
| FirebaseSdk.Firebase.Configure | Sources/YAnalyticsFirebase/FirebaseAnalyticsEngine.swift:36-44 | a configure call adds its app to the registry and is logged; only allowed for an app not yet registered |
| FirebaseSdk.Firebase.LogEvent | Sources/YAnalyticsFirebase/FirebaseAnalyticsEngine.swift:62 | `Analytics.logEvent` appends one logged event and leaves the registry alone |
| FirebaseSdk.Firebase.SetUserProperty | Sources/YAnalyticsFirebase/FirebaseAnalyticsEngine.swift:64 | `Analytics.setUserProperty` appends one user-property call and leaves the registry alone |
| Engine.AppIdentity | Sources/YAnalyticsFirebase/FirebaseAnalyticsEngine.swift:33-45 | the app an override selects is the configuration's `name`: the default app unless a name is given |
| Engine.ConfigureCallFor | Sources/YAnalyticsFirebase/FirebaseAnalyticsEngine.swift:33-46 | the override used creates the selected app, is the plain `configure()` iff no override is chosen, and passes on the override's options |
| Engine.ConfigureStep | Sources/YAnalyticsFirebase/FirebaseAnalyticsEngine.swift:33-46 | one construction issues at most one configure call, none iff the selected app already exists, and only for an app not yet registered |
| Engine.RegistryAfter | Sources/YAnalyticsFirebase/FirebaseAnalyticsEngine.swift:33-46 | after construction the selected app exists and every other registry entry is unchanged |
| Engine.DefaultAppConstruction | Sources/YAnalyticsFirebase/FirebaseAnalyticsEngine.swift:34-41 | with no override or options only, the default app is configured only if absent, then exists; no other entry changes |
| Engine.NamedAppConstruction | Sources/YAnalyticsFirebase/FirebaseAnalyticsEngine.swift:42-45 | with name `N`, app `N` is configured only if absent, then exists; the default app's entry is untouched |
| Engine.ConstructionIdempotent | Sources/YAnalyticsFirebase/FirebaseAnalyticsEngine.swift:21-46 | a second construction with the same override leaves the registry as it was and issues no configure call |
| Engine.RegistryAfterAllIsUnion | Sources/YAnalyticsFirebase/FirebaseAnalyticsEngine.swift:21-46 | any sequence of constructions leaves the registry equal to the old registry plus the selected apps, whatever the order |
| Engine.ConfigureOncePerApp | Sources/YAnalyticsFirebase/FirebaseAnalyticsEngine.swift:21-46 | over any sequence of constructions, the configure calls create exactly the selected apps that were missing, with one call per app |
| Engine.FirstConstructionWins | Sources/YAnalyticsFirebase/FirebaseAnalyticsEngine.swift:19-46 | over any sequence of constructions, each configure call is the one of the first construction that selects a missing app, with its options; every such construction issues its call |
| Engine.LaterOptionsAreIgnored | Sources/YAnalyticsFirebase/FirebaseAnalyticsEngine.swift:33-41 | on an empty registry, a default engine followed by one with options `o` configures the default app once, with the plain `configure()`; `o` is never used |
| Engine.ScreenViewMapping | Sources/YAnalyticsFirebase/FirebaseAnalyticsEngine.swift:59 | a screen view uses the table's `screenViewKey` entry if present and `defaultScreenView` otherwise |
| Engine.Dispatch | Sources/YAnalyticsFirebase/FirebaseAnalyticsEngine.swift:56-68 | a screen view logs `mapping.name` with the one-entry payload `{mapping.topLevelKey: screenName}`; a user property calls `setUserProperty(value, name)` and never `logEvent`; an event logs its name and parameters unchanged |
| Engine.DefaultScreenViewCall | Sources/YAnalyticsFirebase/FirebaseAnalyticsEngine.swift:58-62 | with the default table, `screenView(s)` logs `(screenViewKey, ["screenName": s])` |
| Engine.MissingEntryFallsBack | Sources/YAnalyticsFirebase/FirebaseAnalyticsEngine.swift:59 | a table without a screen-view entry, the empty table included, dispatches every event as the default table does |
| Engine.OnlyScreenViewEntryConsulted | Sources/YAnalyticsFirebase/FirebaseAnalyticsEngine.swift:57-67 | the table is consulted only for screen views, and only through its screen-view entry |
| Engine.DispatchInjectivePerKind | Sources/YAnalyticsFirebase/FirebaseAnalyticsEngine.swift:57-67 | no event data is lost: two events of the same kind that give the same call are equal |
| Engine.Calls | Tests/YAnalyticsFirebaseTests/FirebaseAnalyticsEngineTests.swift:48 | tracking a sequence of events gives one call per event, in order, each the event's `Dispatch` |
| Engine.EmptyTableTracksAsDefault | Tests/YAnalyticsFirebaseTests/FirebaseAnalyticsEngineTests.swift:89-103 | tracking any sequence of events with the table `[:]` logs exactly what the default table logs |
| Engine.FirebaseAnalyticsEngine.constructor | Sources/YAnalyticsFirebase/FirebaseAnalyticsEngine.swift:27-47 | the engine keeps the configuration's mappings; the registry becomes `RegistryAfter`; the configure log grows by `ConfigureStep`; no analytics call is made |
| Engine.FirebaseAnalyticsEngine.Track | Sources/YAnalyticsFirebase/FirebaseAnalyticsEngine.swift:56-68 | `track` appends exactly the call `Dispatch` names and leaves the registry and configure log alone |
| Engine.FirebaseAnalyticsEngine.TrackAll | Tests/YAnalyticsFirebaseTests/FirebaseAnalyticsEngineTests.swift:99 | tracking events one by one appends exactly `Calls(mappings, events)` |

## Left out

- Firebase SDK internals (`FirebaseApp.configure`, `FirebaseApp.app`, `Analytics.logEvent`, `Analytics.setUserProperty`) are foreign code. They are modelled only as the registry set and the two call logs of `FirebaseSdk.Firebase`. What Firebase does with a logged call (batching, transport, persistence) is not modelled.
- `FirebaseOptions` is the opaque type parameter `O`. Its contents and the `GoogleService-Info.plist` loading are file I/O owned by Firebase.
- The dynamic types inside `Any` parameter values are not modelled. A value is either a `String` or an opaque `V`, and the adapter never inspects it.
- The value of `AnalyticsEvent.screenViewKey` belongs to YAnalytics, which is not part of this model. The model leaves it undetermined, so every property holds whatever that value is.
- `AppCoordinator` (`FirebaseAnalyticsEngine.swift:71-79`) is example usage only.
- Test infrastructure is not modelled: `SpyAnalyticsEngine`, `MockAnalyticsData`, `trackForMemoryLeak`, and the tearDown that deletes the default app. `TrackAll` and `Calls` model only the tests' `forEach` over events.
- `Package.swift` is a build manifest.
- Engine.ScreenViewMapping and EventMapping.EqualityIsStructural compare strings character by character, because the model treats a string as a sequence of characters. Swift's `String` equality, and with it `Dictionary` key lookup, uses Unicode canonical equivalence: `"\u{E9}"` equals `"e\u{301}"`. The model does not capture this. A table whose key is canonically equivalent to `screenViewKey` but spelled with different scalars is found by Swift at `FirebaseAnalyticsEngine.swift:59`. The model misses that entry and falls back to `defaultScreenView`. The same gap applies to the synthesized `Equatable` at `FirebaseEventMapping.swift:13`.
- Concurrent construction of engines from several threads is not modelled. The thread-safety of the global registry is Firebase's concern.
- The `AnalyticsEngine` protocol conformance is not modelled as an interface. The model has a single engine, so `track` is a method of `FirebaseAnalyticsEngine`.
