/**
 * The browser state the consent banners touch: `localStorage` as a map from
 * key to stored value, and the event names passed to `window.dispatchEvent`
 * as an append-only log kept by each banner.
 */
module ClientStorage {
  import opened Wrappers

  /** The GDPR categories as a partial record: a field left out of the stored JSON is None. */
  datatype StoredPreferences = StoredPreferences(
    necessary: Option<bool>,
    analytics: Option<bool>,
    marketing: Option<bool>,
    functional: Option<bool>)

  /**
   * One stored string, classified by what `JSON.parse` makes of it:
   * `JsonObject` for a JSON object (its boolean category fields), `Text` for
   * any other string, whether `JSON.parse` rejects it or it parses to a
   * value that is not an object and so spreads no category field.
   */
  datatype StoredValue = Text(text: string) | JsonObject(fields: StoredPreferences)

  /** `!localStorage.getItem(key)`: the key is missing or holds the empty string. */
  predicate Unset(storage: map<string, StoredValue>, key: string) {
    key !in storage || storage[key] == Text("")
  }
}
