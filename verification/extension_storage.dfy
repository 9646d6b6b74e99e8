/** The popup-side `StorageManager`: settings in the local storage area and
    user preferences in the synced area, each falling back to its own
    defaults when nothing is stored. A slot is a value that may be absent. */
module ExtensionStorage {
  import opened Values
  import opened WorkQueue

  datatype Preferences = Preferences(theme: string, language: string)

  /** This manager's defaults, which differ from the background's. */
  const DefaultSettings := Settings(false, "markdown", 1000)
  const DefaultPreferences := Preferences("auto", "en")

  /** `getSettings` on the local `settings` key. */
  function GetSettings(slot: Option<Settings>): (s: Settings)
    ensures slot.None? ==> s == Settings(false, "markdown", 1000)
    ensures slot.Some? ==> s == slot.value
  {
    slot.GetOr(DefaultSettings)
  }

  /** `setSettings`: the new content of the local `settings` key. */
  function SetSettings(slot: Option<Settings>, settings: Settings): (r: Option<Settings>)
    ensures r == Some(settings)
  {
    Some(settings)
  }

  /** `getUserPreferences` on the synced `userPreferences` key. */
  function GetUserPreferences(slot: Option<Preferences>): (p: Preferences)
    ensures slot.None? ==> p == Preferences("auto", "en")
    ensures slot.Some? ==> p == slot.value
  {
    slot.GetOr(DefaultPreferences)
  }

  /** `setUserPreferences`: the new content of the synced key. */
  function SetUserPreferences(slot: Option<Preferences>, preferences: Preferences): (r: Option<Preferences>)
    ensures r == Some(preferences)
  {
    Some(preferences)
  }

  /** What is set is read back, whatever was stored before, and the two
      managers disagree on their default settings. */
  lemma StorageRoundTrips(settingsSlot: Option<Settings>, settings: Settings,
                          preferencesSlot: Option<Preferences>, preferences: Preferences)
    ensures GetSettings(SetSettings(settingsSlot, settings)) == settings
    ensures GetUserPreferences(SetUserPreferences(preferencesSlot, preferences)) == preferences
    ensures GetSettings(None) != WorkQueue.GetSettings(None)
  {
  }
}
