/** `FirebaseEventMapping`: how a screen-view event becomes a Firebase event. */
module EventMapping {
  import opened YAnalytics

  /** An immutable pair: the Firebase event name, and the key under which the
      screen name is placed in the event's data dictionary. Both default to
      the empty string, and no value is rejected. Swift's synthesized
      `Equatable` is Dafny's structural equality on datatypes. */
  datatype FirebaseEventMapping = FirebaseEventMapping(name: string := "", topLevelKey: string := "") {

    /** The mapping used for screen views when a table has none. */
    static const DefaultScreenView: FirebaseEventMapping :=
      FirebaseEventMapping(name := ScreenViewKey, topLevelKey := "screenName")

    /** The default mapping table: one entry, for screen views. */
    static const Default: map<string, FirebaseEventMapping> :=
      map[ScreenViewKey := DefaultScreenView]
  }

  /** The initializer stores both arguments unchanged. */
  lemma InitReadsBack(name: string, topLevelKey: string)
    ensures FirebaseEventMapping(name, topLevelKey).name == name
    ensures FirebaseEventMapping(name, topLevelKey).topLevelKey == topLevelKey
  {
  }

  /** Omitted arguments are empty strings, and an explicitly empty mapping
      is the same value. */
  lemma InitDefaults()
    ensures FirebaseEventMapping().name == "" && FirebaseEventMapping().topLevelKey == ""
    ensures FirebaseEventMapping(name := "") == FirebaseEventMapping("", "")
    ensures FirebaseEventMapping(topLevelKey := "") == FirebaseEventMapping("", "")
  {
  }

  /** Two mappings are equal exactly when both of their fields are. */
  lemma EqualityIsStructural(a: FirebaseEventMapping, b: FirebaseEventMapping)
    ensures a == b <==> a.name == b.name && a.topLevelKey == b.topLevelKey
  {
  }

  lemma DefaultScreenViewFields()
    ensures FirebaseEventMapping.DefaultScreenView.name == ScreenViewKey
    ensures FirebaseEventMapping.DefaultScreenView.topLevelKey == "screenName"
  {
  }

  /** The default table has exactly one key, which maps to the default
      screen-view mapping. */
  lemma DefaultTableContents()
    ensures FirebaseEventMapping.Default.Keys == {ScreenViewKey}
    ensures FirebaseEventMapping.Default[ScreenViewKey] == FirebaseEventMapping.DefaultScreenView
  {
  }
}
