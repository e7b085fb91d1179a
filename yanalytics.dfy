/** The parts of the external YAnalytics package that this adapter consumes.
    Only their shape is known here; `screenViewKey` keeps whatever value
    YAnalytics gives it. */
module YAnalytics {
  import opened Wrappers

  /** Swift's `Any` as it reaches this layer: a `String` (the only dynamic
      type the adapter itself builds, for screen-view payloads) or a value of
      some other type that the adapter passes on without looking at it. */
  datatype AnyValue<V> = Text(text: string) | Other(value: V)

  /** `[String: Any]` */
  type Parameters<V> = map<string, AnyValue<V>>

  /** `AnalyticsEvent.screenViewKey`: the reserved key of the screen-view
      entry in a mapping table. Its value is not fixed by this model. */
  const ScreenViewKey: string

  /** `AnalyticsEvent`: the closed set of backend-neutral events. */
  datatype AnalyticsEvent<V> =
    | ScreenView(screenName: string)
    | UserProperty(name: string, value: Option<string>)
    | Event(name: string, parameters: Option<Parameters<V>>)
}
