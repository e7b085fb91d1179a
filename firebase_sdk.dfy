/** The Firebase SDK as this adapter sees it: the global app registry of
    FirebaseCore (`FirebaseApp.app`, `FirebaseApp.configure`) and the two
    primitives of FirebaseAnalytics (`Analytics.logEvent`,
    `Analytics.setUserProperty`). What the SDK does with a call is not
    modelled; each call is recorded in a log instead. */
module FirebaseSdk {
  import opened Wrappers
  import opened YAnalytics

  /** An app in the registry: the default app is `None`, a named app is
      `Some(name)`. */
  type AppId = Option<string>

  const DefaultApp: AppId := None

  /** The three `FirebaseApp.configure` overrides. */
  datatype ConfigureCall<O> =
    | Configure
    | ConfigureWithOptions(options: O)
    | ConfigureNamed(name: string, options: O)
  {
    /** The app a call creates. */
    function App(): AppId {
      if ConfigureNamed? then Some(name) else DefaultApp
    }
  }

  /** A call to one of the analytics primitives. */
  datatype AnalyticsCall<V> =
    | LoggedEvent(name: string, parameters: Option<Parameters<V>>)
    | UserPropertySet(value: Option<string>, forName: string)

  class Firebase<O, V> {
    /** The apps configured so far. */
    var apps: set<AppId>
    /** Every `FirebaseApp.configure` call, oldest first. */
    var configureCalls: seq<ConfigureCall<O>>
    /** Every analytics call, oldest first. */
    var analyticsCalls: seq<AnalyticsCall<V>>

    /** An SDK whose registry already holds `apps` and whose logs are empty. */
    constructor (apps: set<AppId>)
      ensures this.apps == apps
      ensures configureCalls == [] && analyticsCalls == []
    {
      this.apps := apps;
      configureCalls := [];
      analyticsCalls := [];
    }

    /** `FirebaseApp.app()` / `FirebaseApp.app(name:)` compared with `nil`. */
    method App(id: AppId) returns (present: bool)
      ensures present <==> id in apps
    {
      present := id in apps;
    }

    /** `FirebaseApp.configure(...)`. Configuring an app that already exists
        is an error in FirebaseCore, so a caller must check first. */
    method Configure(call: ConfigureCall<O>)
      requires call.App() !in apps
      modifies this
      ensures apps == old(apps) + {call.App()}
      ensures configureCalls == old(configureCalls) + [call]
      ensures analyticsCalls == old(analyticsCalls)
    {
      apps := apps + {call.App()};
      configureCalls := configureCalls + [call];
    }

    /** `Analytics.logEvent(_:parameters:)` */
    method LogEvent(name: string, parameters: Option<Parameters<V>>)
      modifies this
      ensures analyticsCalls == old(analyticsCalls) + [LoggedEvent(name, parameters)]
      ensures apps == old(apps) && configureCalls == old(configureCalls)
    {
      analyticsCalls := analyticsCalls + [LoggedEvent(name, parameters)];
    }

    /** `Analytics.setUserProperty(_:forName:)` */
    method SetUserProperty(value: Option<string>, forName: string)
      modifies this
      ensures analyticsCalls == old(analyticsCalls) + [UserPropertySet(value, forName)]
      ensures apps == old(apps) && configureCalls == old(configureCalls)
    {
      analyticsCalls := analyticsCalls + [UserPropertySet(value, forName)];
    }
  }
}
