/** `FirebaseAnalyticsEngine`: construction (check-then-configure against the
    app registry) and `track(event:)` (one backend call per event). */
module Engine {
  import opened Wrappers
  import opened YAnalytics
  import opened EventMapping
  import opened Configuration
  import opened FirebaseSdk

  // ---------------------------------------------------------------------
  // Construction, stated on the registry as a set of apps
  // ---------------------------------------------------------------------

  /** The app a configuration override selects: the default app unless a
      name is given. It is the configuration's own `name`. */
  function AppIdentity<O>(p: ConfigureParameters<O>): (id: AppId)
    ensures id == FirebaseAnalyticsConfiguration(p, map[]).Name()
  {
    match p
    case NoOverride => DefaultApp
    case OptionsOnly(_) => DefaultApp
    case NameAndOptions(name, _) => Some(name)
  }

  /** The `FirebaseApp.configure` override an engine uses for `p`: it creates
      the app `p` selects and passes on exactly the options `p` carries. */
  function ConfigureCallFor<O>(p: ConfigureParameters<O>): (c: ConfigureCall<O>)
    ensures c.App() == AppIdentity(p)
    ensures c.Configure? <==> p.NoOverride?
    ensures !c.Configure? ==> c.options == p.options
  {
    match p
    case NoOverride => Configure
    case OptionsOnly(options) => ConfigureWithOptions(options)
    case NameAndOptions(name, options) => ConfigureNamed(name, options)
  }

  /** The configure calls one engine construction issues on a registry
      holding `apps`: one call when the selected app is missing, none when
      it already exists. */
  function ConfigureStep<O>(apps: set<AppId>, p: ConfigureParameters<O>): (calls: seq<ConfigureCall<O>>)
    ensures |calls| <= 1
    ensures calls == [] <==> AppIdentity(p) in apps
    ensures forall c | c in calls :: c == ConfigureCallFor(p) && c.App() !in apps
  {
    if AppIdentity(p) in apps then [] else [ConfigureCallFor(p)]
  }

  /** The registry after one engine construction: the selected app is
      present and no other entry has changed. */
  function RegistryAfter<O>(apps: set<AppId>, p: ConfigureParameters<O>): (r: set<AppId>)
    ensures r == apps + {AppIdentity(p)}
  {
    if AppIdentity(p) in apps then apps else apps + {ConfigureCallFor(p).App()}
  }

  /** With no override or with options only, construction touches the
      default app alone. */
  lemma DefaultAppConstruction<O>(apps: set<AppId>, p: ConfigureParameters<O>)
    requires !p.NameAndOptions?
    ensures DefaultApp in RegistryAfter(apps, p)
    ensures forall id | id != DefaultApp :: id in RegistryAfter(apps, p) <==> id in apps
    ensures ConfigureStep(apps, p) == if DefaultApp in apps then [] else [ConfigureCallFor(p)]
  {
  }

  /** With a name and options, construction touches the named app alone;
      the default app's entry is left as it was. */
  lemma NamedAppConstruction<O>(apps: set<AppId>, name: string, options: O)
    ensures Some(name) in RegistryAfter(apps, NameAndOptions(name, options))
    ensures forall id | id != Some(name) :: id in RegistryAfter(apps, NameAndOptions(name, options)) <==> id in apps
    ensures DefaultApp in RegistryAfter(apps, NameAndOptions(name, options)) <==> DefaultApp in apps
    ensures ConfigureStep(apps, NameAndOptions(name, options)) ==
      if Some(name) in apps then [] else [ConfigureNamed(name, options)]
  {
  }

  /** A second construction with the same override leaves the registry as
      the first one left it and issues no configure call. */
  lemma ConstructionIdempotent<O>(apps: set<AppId>, p: ConfigureParameters<O>)
    ensures RegistryAfter(RegistryAfter(apps, p), p) == RegistryAfter(apps, p)
    ensures ConfigureStep(RegistryAfter(apps, p), p) == []
  {
  }

  /** The apps selected by a sequence of configurations. */
  function Identities<O>(ps: seq<ConfigureParameters<O>>): set<AppId>
  {
    if ps == [] then {} else {AppIdentity(ps[0])} + Identities(ps[1..])
  }

  /** The registry after constructing one engine per configuration, in order. */
  function RegistryAfterAll<O>(apps: set<AppId>, ps: seq<ConfigureParameters<O>>): set<AppId>
    decreases ps
  {
    if ps == [] then apps else RegistryAfterAll(RegistryAfter(apps, ps[0]), ps[1..])
  }

  /** The configure calls those constructions issue, in order. */
  function ConfigureCallsAll<O>(apps: set<AppId>, ps: seq<ConfigureParameters<O>>): seq<ConfigureCall<O>>
    decreases ps
  {
    if ps == [] then [] else ConfigureStep(apps, ps[0]) + ConfigureCallsAll(RegistryAfter(apps, ps[0]), ps[1..])
  }

  /** The apps a sequence of configure calls creates. */
  function CallApps<O>(calls: seq<ConfigureCall<O>>): set<AppId>
  {
    set i | 0 <= i < |calls| :: calls[i].App()
  }

  /** Any number of constructions, in any order, leave the registry holding
      exactly what it held before plus the apps they select. */
  lemma {:induction false} RegistryAfterAllIsUnion<O>(apps: set<AppId>, ps: seq<ConfigureParameters<O>>)
    ensures RegistryAfterAll(apps, ps) == apps + Identities(ps)
    decreases ps
  {
    if ps != [] {
      RegistryAfterAllIsUnion(RegistryAfter(apps, ps[0]), ps[1..]);
    }
  }

  /** Only the first construction for each missing app configures it: the
      calls create exactly the selected apps that were missing, one call per
      app, so no app is ever configured twice. */
  lemma {:induction false} ConfigureOncePerApp<O>(apps: set<AppId>, ps: seq<ConfigureParameters<O>>)
    ensures CallApps(ConfigureCallsAll(apps, ps)) == Identities(ps) - apps
    ensures |ConfigureCallsAll(apps, ps)| == |Identities(ps) - apps|
    decreases ps
  {
    if ps == [] {
      assert CallApps(ConfigureCallsAll(apps, ps)) == {};
    } else {
      var id := AppIdentity(ps[0]);
      var step := ConfigureStep(apps, ps[0]);
      var apps' := RegistryAfter(apps, ps[0]);
      var rest := ConfigureCallsAll(apps', ps[1..]);
      var added := Identities(ps[1..]) - apps';
      ConfigureOncePerApp(apps', ps[1..]);
      CallAppsAppend(step, rest);
      StepApps(apps, ps[0]);
      SplitNewApps(apps, id, Identities(ps[1..]));
      DisjointUnionSize({id} - apps, added);
    }
  }

  /** Construction `i` is the first in `ps` to select an app that the
      registry `apps` was missing. */
  ghost predicate FirstToSelect<O>(apps: set<AppId>, ps: seq<ConfigureParameters<O>>, i: int)
  {
    && 0 <= i < |ps|
    && AppIdentity(ps[i]) !in apps
    && forall k | 0 <= k < i :: AppIdentity(ps[k]) != AppIdentity(ps[i])
  }

  /** First call wins: every configure call comes from the first
      construction that selects a missing app, with that construction's
      options, and every such construction issues its call. The options of
      later constructions for the same app are never used. */
  lemma {:induction false} FirstConstructionWins<O>(apps: set<AppId>, ps: seq<ConfigureParameters<O>>)
    ensures forall j | 0 <= j < |ConfigureCallsAll(apps, ps)| ::
      exists i :: FirstToSelect(apps, ps, i) && ConfigureCallsAll(apps, ps)[j] == ConfigureCallFor(ps[i])
    ensures forall i | FirstToSelect(apps, ps, i) :: ConfigureCallFor(ps[i]) in ConfigureCallsAll(apps, ps)
    decreases ps
  {
    if ps == [] {
      assert ConfigureCallsAll(apps, ps) == [];
    } else {
      var step := ConfigureStep(apps, ps[0]);
      var apps' := RegistryAfter(apps, ps[0]);
      var rest := ConfigureCallsAll(apps', ps[1..]);
      var calls := ConfigureCallsAll(apps, ps);
      FirstConstructionWins(apps', ps[1..]);
      assert calls == step + rest;
      forall j | 0 <= j < |calls|
        ensures exists i :: FirstToSelect(apps, ps, i) && calls[j] == ConfigureCallFor(ps[i])
      {
        if j < |step| {
          assert step[j] in step;
          assert calls[j] == step[j] == ConfigureCallFor(ps[0]);
          assert FirstToSelect(apps, ps, 0);
        } else {
          assert calls[j] == rest[j - |step|];
          var i' :| FirstToSelect(apps', ps[1..], i') && rest[j - |step|] == ConfigureCallFor(ps[1..][i']);
          assert ps[1..][i'] == ps[i' + 1];
          forall k | 0 <= k < i' + 1 ensures AppIdentity(ps[k]) != AppIdentity(ps[i' + 1]) {
            if k > 0 { assert ps[k] == ps[1..][k - 1]; }
          }
          assert FirstToSelect(apps, ps, i' + 1);
        }
      }
      forall i | FirstToSelect(apps, ps, i) ensures ConfigureCallFor(ps[i]) in calls {
        if i == 0 {
          assert calls[0] == ConfigureCallFor(ps[0]);
        } else {
          assert AppIdentity(ps[0]) != AppIdentity(ps[i]);
          assert ps[1..][i - 1] == ps[i];
          forall k | 0 <= k < i - 1 ensures AppIdentity(ps[1..][k]) != AppIdentity(ps[1..][i - 1]) {
            assert ps[1..][k] == ps[k + 1];
          }
          assert FirstToSelect(apps', ps[1..], i - 1);
          assert ConfigureCallFor(ps[i]) in rest;
        }
      }
    }
  }

  /** On an empty registry, an engine built with no override and then one
      built with options `o` configure the default app once, without `o`. */
  lemma LaterOptionsAreIgnored<O>(o: O)
    ensures ConfigureCallsAll({}, [NoOverride, OptionsOnly(o)]) == [Configure]
  {
    var ps := [NoOverride, OptionsOnly(o)];
    assert ps[1..] == [OptionsOnly(o)] && ps[1..][1..] == [];
    assert RegistryAfter<O>({}, NoOverride) == {DefaultApp};
    assert ConfigureStep({DefaultApp}, OptionsOnly(o)) == [];
    assert ConfigureCallsAll({DefaultApp}, [OptionsOnly(o)]) == [];
    assert ConfigureStep<O>({}, NoOverride) == [Configure];
  }

  /** The one construction step creates the selected app if it was missing. */
  lemma StepApps<O>(apps: set<AppId>, p: ConfigureParameters<O>)
    ensures CallApps(ConfigureStep(apps, p)) == {AppIdentity(p)} - apps
    ensures |ConfigureStep(apps, p)| == |{AppIdentity(p)} - apps|
  {
    var step := ConfigureStep(apps, p);
    if AppIdentity(p) in apps {
      assert step == [];
      assert {AppIdentity(p)} - apps == {};
    } else {
      assert step[0].App() == AppIdentity(p);
      assert {AppIdentity(p)} - apps == {AppIdentity(p)};
    }
  }

  lemma SplitNewApps(apps: set<AppId>, id: AppId, later: set<AppId>)
    ensures ({id} + later) - apps == ({id} - apps) + (later - (apps + {id}))
    ensures ({id} - apps) !! (later - (apps + {id}))
  {
  }

  lemma DisjointUnionSize<T>(a: set<T>, b: set<T>)
    requires a !! b
    ensures |a + b| == |a| + |b|
  {
  }

  lemma CallAppsAppend<O>(a: seq<ConfigureCall<O>>, b: seq<ConfigureCall<O>>)
    ensures CallApps(a + b) == CallApps(a) + CallApps(b)
  {
    var ab := a + b;
    forall id | id in CallApps(ab) ensures id in CallApps(a) + CallApps(b) {
      var i :| 0 <= i < |ab| && ab[i].App() == id;
      if i >= |a| { assert b[i - |a|] == ab[i]; }
    }
    forall id | id in CallApps(a) ensures id in CallApps(ab) {
      var i :| 0 <= i < |a| && a[i].App() == id;
      assert ab[i] == a[i];
    }
    forall id | id in CallApps(b) ensures id in CallApps(ab) {
      var i :| 0 <= i < |b| && b[i].App() == id;
      assert ab[i + |a|] == b[i];
    }
  }

  // ---------------------------------------------------------------------
  // track(event:)
  // ---------------------------------------------------------------------

  /** The mapping a screen view uses: the table's `screenViewKey` entry, or
      the default screen-view mapping when the table has none. */
  function ScreenViewMapping(mappings: map<string, FirebaseEventMapping>): (m: FirebaseEventMapping)
    ensures ScreenViewKey in mappings ==> m == mappings[ScreenViewKey]
    ensures ScreenViewKey !in mappings ==> m == FirebaseEventMapping.DefaultScreenView
  {
    Lookup(mappings, ScreenViewKey).GetOr(FirebaseEventMapping.DefaultScreenView)
  }

  /** The single backend call `track(event:)` makes. A screen view is logged
      under the mapping's event name with a one-entry payload holding the
      screen name under the mapping's key; a user property goes to
      `setUserProperty` and nothing else; a generic event is logged with its
      name and parameters unchanged. */
  function Dispatch<V>(mappings: map<string, FirebaseEventMapping>, event: AnalyticsEvent<V>): (c: AnalyticsCall<V>)
    ensures c.UserPropertySet? <==> event.UserProperty?
    ensures event.ScreenView? ==>
      && c.name == ScreenViewMapping(mappings).name
      && c.parameters.Some?
      && c.parameters.value.Keys == {ScreenViewMapping(mappings).topLevelKey}
      && c.parameters.value[ScreenViewMapping(mappings).topLevelKey] == Text(event.screenName)
    ensures event.UserProperty? ==> c.forName == event.name && c.value == event.value
    ensures event.Event? ==> c.name == event.name && c.parameters == event.parameters
  {
    match event
    case ScreenView(screenName) =>
      var mapping := ScreenViewMapping(mappings);
      LoggedEvent(mapping.name, Some(map[mapping.topLevelKey := Text(screenName)]))
    case UserProperty(name, value) =>
      UserPropertySet(value, name)
    case Event(name, parameters) =>
      LoggedEvent(name, parameters)
  }

  /** With the default table a screen view is logged as
      `logEvent(screenViewKey, ["screenName": name])`. */
  lemma DefaultScreenViewCall<V>(screenName: string)
    ensures Dispatch<V>(FirebaseEventMapping.Default, ScreenView(screenName)) ==
      LoggedEvent(ScreenViewKey, Some(map["screenName" := Text(screenName)]))
  {
  }

  /** A table without a screen-view entry (the empty table `[:]` among them)
      dispatches every event exactly as the default table does. */
  lemma MissingEntryFallsBack<V>(mappings: map<string, FirebaseEventMapping>, event: AnalyticsEvent<V>)
    requires ScreenViewKey !in mappings
    ensures Dispatch(mappings, event) == Dispatch(FirebaseEventMapping.Default, event)
  {
  }

  /** Only the screen-view entry of the table is consulted, and only for
      screen views. */
  lemma OnlyScreenViewEntryConsulted<V>(m1: map<string, FirebaseEventMapping>, m2: map<string, FirebaseEventMapping>, event: AnalyticsEvent<V>)
    requires event.ScreenView? ==> ScreenViewMapping(m1) == ScreenViewMapping(m2)
    ensures Dispatch(m1, event) == Dispatch(m2, event)
  {
  }

  /** Dispatch loses nothing: two events of the same kind that give the same
      call are the same event. */
  lemma DispatchInjectivePerKind<V>(mappings: map<string, FirebaseEventMapping>, e1: AnalyticsEvent<V>, e2: AnalyticsEvent<V>)
    requires e1.ScreenView? == e2.ScreenView? && e1.Event? == e2.Event?
    requires Dispatch(mappings, e1) == Dispatch(mappings, e2)
    ensures e1 == e2
  {
  }

  /** The calls made by tracking `events` one after another. */
  function Calls<V>(mappings: map<string, FirebaseEventMapping>, events: seq<AnalyticsEvent<V>>): (cs: seq<AnalyticsCall<V>>)
    ensures |cs| == |events|
    ensures forall i | 0 <= i < |events| :: cs[i] == Dispatch(mappings, events[i])
  {
    if events == [] then [] else [Dispatch(mappings, events[0])] + Calls(mappings, events[1..])
  }

  /** Tracking any sequence of events with the empty table logs exactly what
      the default table logs. */
  lemma EmptyTableTracksAsDefault<V>(events: seq<AnalyticsEvent<V>>)
    ensures Calls(map[], events) == Calls(FirebaseEventMapping.Default, events)
  {
  }

  // ---------------------------------------------------------------------
  // The engine object
  // ---------------------------------------------------------------------

  class FirebaseAnalyticsEngine<O, V> {
    /** The mapping table, as the configuration gave it. */
    const mappings: map<string, FirebaseEventMapping>
    /** The Firebase SDK this engine configures and calls. */
    const firebase: Firebase<O, V>

    /** `init(configuration:)`: store the mappings, then configure the
        selected app only when the registry does not hold it yet. */
    constructor (firebase: Firebase<O, V>, configuration: FirebaseAnalyticsConfiguration<O> := FirebaseAnalyticsConfiguration.Default())
      modifies firebase
      ensures this.mappings == configuration.mappings && this.firebase == firebase
      ensures firebase.apps == RegistryAfter(old(firebase.apps), configuration.parameters)
      ensures firebase.configureCalls ==
        old(firebase.configureCalls) + ConfigureStep(old(firebase.apps), configuration.parameters)
      ensures firebase.analyticsCalls == old(firebase.analyticsCalls)
    {
      mappings := configuration.mappings;
      this.firebase := firebase;
      new;
      match configuration.parameters
      case NoOverride =>
        var present := firebase.App(DefaultApp);
        if !present {
          firebase.Configure(Configure);
        }
      case OptionsOnly(options) =>
        var present := firebase.App(DefaultApp);
        if !present {
          firebase.Configure(ConfigureWithOptions(options));
        }
      case NameAndOptions(name, options) =>
        var present := firebase.App(Some(name));
        if !present {
          firebase.Configure(ConfigureNamed(name, options));
        }
    }

    /** `track(event:)`: exactly one analytics call, the one `Dispatch`
        names; the registry is not touched. */
    method Track(event: AnalyticsEvent<V>)
      modifies firebase
      ensures firebase.analyticsCalls == old(firebase.analyticsCalls) + [Dispatch(mappings, event)]
      ensures firebase.apps == old(firebase.apps) && firebase.configureCalls == old(firebase.configureCalls)
    {
      match event
      case ScreenView(screenName) =>
        var mapping := Lookup(mappings, ScreenViewKey).GetOr(FirebaseEventMapping.DefaultScreenView);
        var data := map[mapping.topLevelKey := Text(screenName)];
        firebase.LogEvent(mapping.name, Some(data));
      case UserProperty(name, value) =>
        firebase.SetUserProperty(value, name);
      case Event(name, parameters) =>
        firebase.LogEvent(name, parameters);
    }

    /** Tracking events one after another, as a client's `forEach` does. */
    method TrackAll(events: seq<AnalyticsEvent<V>>)
      modifies firebase
      ensures firebase.analyticsCalls == old(firebase.analyticsCalls) + Calls(mappings, events)
      ensures firebase.apps == old(firebase.apps) && firebase.configureCalls == old(firebase.configureCalls)
    {
      for i := 0 to |events|
        invariant firebase.analyticsCalls == old(firebase.analyticsCalls) + Calls(mappings, events[..i])
        invariant firebase.apps == old(firebase.apps) && firebase.configureCalls == old(firebase.configureCalls)
      {
        Track(events[i]);
        CallsAppend(mappings, events[..i], events[i]);
        assert events[..i + 1] == events[..i] + [events[i]];
      }
      assert events[..|events|] == events;
    }
  }

  lemma CallsAppend<V>(mappings: map<string, FirebaseEventMapping>, events: seq<AnalyticsEvent<V>>, e: AnalyticsEvent<V>)
    ensures Calls(mappings, events + [e]) == Calls(mappings, events) + [Dispatch(mappings, e)]
  {
  }
}
