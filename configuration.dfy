/** `FirebaseAnalyticsConfiguration`: which `FirebaseApp.configure` override
    the engine uses, and the table of event mappings. */
module Configuration {
  import opened Wrappers
  import opened EventMapping

  /** `ConfigureParameters`. A name exists only together with options, so
      "a name without options" cannot be represented. `O` stands for
      `FirebaseOptions`, whose contents this model does not look at. */
  datatype ConfigureParameters<O> =
    | NoOverride
    | OptionsOnly(options: O)
    | NameAndOptions(name: string, options: O)

  datatype FirebaseAnalyticsConfiguration<O> =
    FirebaseAnalyticsConfiguration(parameters: ConfigureParameters<O>, mappings: map<string, FirebaseEventMapping>)
  {
    /** The (optional) app name: present for the name-and-options override
        only, and never present without options. */
    function Name(): (n: Option<string>)
      ensures n.Some? <==> parameters.NameAndOptions?
      ensures n.Some? ==> n.value == parameters.name
      ensures n.Some? ==> Options().Some?
    {
      match parameters
      case NoOverride => None
      case OptionsOnly(_) => None
      case NameAndOptions(name, _) => Some(name)
    }

    /** The (optional) options: absent only when no override is chosen. */
    function Options(): (o: Option<O>)
      ensures o.None? <==> parameters.NoOverride?
      ensures o.Some? ==> o.value == parameters.options
    {
      match parameters
      case NoOverride => None
      case OptionsOnly(options) => Some(options)
      case NameAndOptions(_, options) => Some(options)
    }

    /** `init(mappings:)`: default app name, options from the app's plist. */
    static function Init(mappings: map<string, FirebaseEventMapping> := FirebaseEventMapping.Default)
      : (c: FirebaseAnalyticsConfiguration<O>)
      ensures c.Name() == None && c.Options() == None
      ensures c.mappings == mappings
    {
      FirebaseAnalyticsConfiguration(NoOverride, mappings)
    }

    /** `init(options:mappings:)`: default app name, explicit options. */
    static function InitWithOptions(options: O, mappings: map<string, FirebaseEventMapping> := FirebaseEventMapping.Default)
      : (c: FirebaseAnalyticsConfiguration<O>)
      ensures c.Name() == None && c.Options() == Some(options)
      ensures c.mappings == mappings
    {
      FirebaseAnalyticsConfiguration(OptionsOnly(options), mappings)
    }

    /** `init(name:options:mappings:)`: explicit app name and options. */
    static function InitWithNameAndOptions(name: string, options: O, mappings: map<string, FirebaseEventMapping> := FirebaseEventMapping.Default)
      : (c: FirebaseAnalyticsConfiguration<O>)
      ensures c.Name() == Some(name) && c.Options() == Some(options)
      ensures c.mappings == mappings
    {
      FirebaseAnalyticsConfiguration(NameAndOptions(name, options), mappings)
    }

    /** `FirebaseAnalyticsConfiguration.default`, the same as `init()`. */
    static function Default(): (c: FirebaseAnalyticsConfiguration<O>)
      ensures c.parameters == NoOverride
      ensures c.Name() == None && c.Options() == None
      ensures c.mappings == FirebaseEventMapping.Default
    {
      Init()
    }
  }

  /** Leaving out `mappings` in any initializer gives the default table. */
  lemma OmittedMappingsAreDefault<O>(name: string, options: O)
    ensures FirebaseAnalyticsConfiguration<O>.Init().mappings == FirebaseEventMapping.Default
    ensures FirebaseAnalyticsConfiguration.InitWithOptions(options).mappings == FirebaseEventMapping.Default
    ensures FirebaseAnalyticsConfiguration.InitWithNameAndOptions(name, options).mappings == FirebaseEventMapping.Default
  {
  }

  /** The public accessors lose nothing: two configurations whose `name`,
      `options` and `mappings` agree are the same configuration. */
  lemma AccessorsDetermineConfiguration<O>(c: FirebaseAnalyticsConfiguration<O>, d: FirebaseAnalyticsConfiguration<O>)
    requires c.Name() == d.Name() && c.Options() == d.Options() && c.mappings == d.mappings
    ensures c == d
  {
  }

  /** The three initializers between them produce every configuration, each
      from its own override. */
  lemma EveryConfigurationIsInitialized<O>(c: FirebaseAnalyticsConfiguration<O>)
    ensures c.parameters.NoOverride? ==> c == FirebaseAnalyticsConfiguration.Init(c.mappings)
    ensures c.parameters.OptionsOnly? ==> c == FirebaseAnalyticsConfiguration.InitWithOptions(c.parameters.options, c.mappings)
    ensures c.parameters.NameAndOptions? ==>
      c == FirebaseAnalyticsConfiguration.InitWithNameAndOptions(c.parameters.name, c.parameters.options, c.mappings)
  {
  }
}
