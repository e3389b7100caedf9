/**
 * The GDPR banner: four consent categories kept in component state,
 * restored from `localStorage['gdpr-consent']` on mount and written back,
 * followed by a `'gdpr-consent-changed'` event, by each of the three
 * buttons.
 */
module Gdpr {
  import opened Wrappers
  import opened JsString
  import opened Config
  import opened ClientStorage

  const GdprKey: string := "gdpr-consent"
  const GdprEvent: string := "gdpr-consent-changed"

  /** The four consent categories. */
  datatype Preferences = Preferences(necessary: bool, analytics: bool, marketing: bool, functional: bool)

  /** The state the component starts with: only the necessary category granted. */
  const DefaultPreferences: Preferences := Preferences(true, false, false, false)

  /** What Accept All grants. */
  const AllAccepted: Preferences := Preferences(true, true, true, true)

  /** What Reject All leaves: the same record as the defaults. */
  const Minimal: Preferences := Preferences(true, false, false, false)

  /** `JSON.stringify(p)`: every category is written. */
  function Stringify(p: Preferences): (v: StoredValue)
    ensures v.JsonObject?
    ensures v.fields.necessary.Some? && v.fields.analytics.Some? && v.fields.marketing.Some? && v.fields.functional.Some?
  {
    JsonObject(StoredPreferences(Some(p.necessary), Some(p.analytics), Some(p.marketing), Some(p.functional)))
  }

  /** `{...p, ...saved}` restricted to the four categories: a saved field wins over the current one. */
  function Merge(p: Preferences, saved: StoredPreferences): (r: Preferences)
    ensures saved.necessary.Some? ==> r.necessary == saved.necessary.value
    ensures saved.necessary.None? ==> r.necessary == p.necessary
    ensures saved.analytics.Some? ==> r.analytics == saved.analytics.value
    ensures saved.analytics.None? ==> r.analytics == p.analytics
    ensures saved.marketing.Some? ==> r.marketing == saved.marketing.value
    ensures saved.marketing.None? ==> r.marketing == p.marketing
    ensures saved.functional.Some? ==> r.functional == saved.functional.value
    ensures saved.functional.None? ==> r.functional == p.functional
  {
    Preferences(
      if saved.necessary.Some? then saved.necessary.value else p.necessary,
      if saved.analytics.Some? then saved.analytics.value else p.analytics,
      if saved.marketing.Some? then saved.marketing.value else p.marketing,
      if saved.functional.Some? then saved.functional.value else p.functional)
  }

  /**
   * The mount effect's reading of a stored value: an object is merged over
   * the current preferences; any other string (a parse failure is caught
   * and logged) leaves them as they are.
   */
  function Restore(p: Preferences, stored: StoredValue): (r: Preferences)
    ensures stored.Text? ==> r == p
    ensures stored.JsonObject? ==> r == Merge(p, stored.fields)
  {
    match stored
    case Text(_) => p
    case JsonObject(saved) => Merge(p, saved)
  }

  /** What a handler stores is what the next mount restores, whatever the preferences were before. */
  lemma {:induction false} RestoreStringify(p: Preferences, q: Preferences)
    ensures Restore(q, Stringify(p)) == p
  {
  }

  /** A stored record that says `necessary: false` clears the necessary category on the next mount. */
  lemma StoredNecessaryFalseClears(p: Preferences, saved: StoredPreferences)
    requires saved.necessary == Some(false)
    ensures !Restore(p, JsonObject(saved)).necessary
  {
  }

  /** A stored record never takes the necessary category away. */
  predicate StoredKeepsNecessary(storage: map<string, StoredValue>) {
    GdprKey in storage && storage[GdprKey].JsonObject? ==> storage[GdprKey].fields.necessary != Some(false)
  }

  class GdprBanner {
    var isVisible: bool
    var showSettings: bool
    var preferences: Preferences
    /** `localStorage`. */
    var storage: map<string, StoredValue>
    /** The names of the events dispatched on `window`, oldest first. */
    var events: seq<string>
    /** The storage keys read so far, oldest first. */
    ghost var keysRead: seq<string>

    /**
     * The necessary category is granted, and stays granted, as long as no
     * stored record withdraws it: every handler and the mount effect keep
     * this.
     */
    predicate NecessaryGranted()
      reads this
      ensures NecessaryGranted() ==> preferences.necessary
      ensures NecessaryGranted() && GdprKey in storage && storage[GdprKey].JsonObject? ==>
        Restore(preferences, storage[GdprKey]).necessary
    {
      preferences.necessary && StoredKeepsNecessary(storage)
    }

    /** What the component renders: nothing when the flag is falsy, else the banner while it is visible. */
    predicate BannerShown(cfg: SiteConfig)
      reads this
      ensures BannerShown(cfg) ==> cfg.gdprBannerEnabled == Some(true)
    {
      IsTrue(cfg.gdprBannerEnabled) && isVisible
    }

    /** The initial state: hidden, settings closed, only necessary granted. */
    constructor (storage0: map<string, StoredValue>, events0: seq<string>)
      ensures !isVisible && !showSettings && preferences == DefaultPreferences
      ensures storage == storage0 && events == events0 && keysRead == []
      ensures StoredKeepsNecessary(storage0) ==> NecessaryGranted()
    {
      isVisible := false;
      showSettings := false;
      preferences := DefaultPreferences;
      storage := storage0;
      events := events0;
      keysRead := [];
    }

    /**
     * The mount effect. With the flag not exactly `true` nothing is read or
     * changed. Otherwise the stored consent is read: when unset the banner
     * becomes visible; when set it is restored over the preferences and the
     * banner stays as it was. Nothing is written or dispatched.
     */
    method Mount(cfg: SiteConfig)
      modifies this
      ensures storage == old(storage) && events == old(events) && showSettings == old(showSettings)
      ensures !IsTrue(cfg.gdprBannerEnabled) ==>
        isVisible == old(isVisible) && preferences == old(preferences) && keysRead == old(keysRead)
      ensures IsTrue(cfg.gdprBannerEnabled) ==> keysRead == old(keysRead) + [GdprKey]
      ensures IsTrue(cfg.gdprBannerEnabled) && Unset(storage, GdprKey) ==>
        isVisible && preferences == old(preferences)
      ensures IsTrue(cfg.gdprBannerEnabled) && !Unset(storage, GdprKey) ==>
        isVisible == old(isVisible) && preferences == Restore(old(preferences), storage[GdprKey])
      ensures old(NecessaryGranted()) ==> NecessaryGranted()
    {
      if !IsTrue(cfg.gdprBannerEnabled) {
        return;
      }
      keysRead := keysRead + [GdprKey];
      if Unset(storage, GdprKey) {
        isVisible := true;
      } else {
        preferences := Restore(preferences, storage[GdprKey]);
      }
    }

    /** Accept All: every category stored and granted, banner hidden, one event. */
    method AcceptAll()
      modifies this
      ensures storage == old(storage)[GdprKey := Stringify(AllAccepted)]
      ensures preferences == AllAccepted && !isVisible && showSettings == old(showSettings)
      ensures events == old(events) + [GdprEvent] && keysRead == old(keysRead)
      ensures old(NecessaryGranted()) ==> NecessaryGranted()
    {
      var allAccepted := AllAccepted;
      storage := storage[GdprKey := Stringify(allAccepted)];
      preferences := allAccepted;
      isVisible := false;
      events := events + [GdprEvent];
    }

    /** Save Preferences: the current toggles stored unchanged, banner and settings hidden, one event. */
    method SavePreferences()
      modifies this
      ensures storage == old(storage)[GdprKey := Stringify(old(preferences))]
      ensures preferences == old(preferences) && !isVisible && !showSettings
      ensures events == old(events) + [GdprEvent] && keysRead == old(keysRead)
      ensures old(NecessaryGranted()) ==> NecessaryGranted()
    {
      storage := storage[GdprKey := Stringify(preferences)];
      isVisible := false;
      showSettings := false;
      events := events + [GdprEvent];
    }

    /** Reject All: only necessary stored and granted whatever was chosen before, banner hidden, one event. */
    method RejectAll()
      modifies this
      ensures storage == old(storage)[GdprKey := Stringify(Minimal)]
      ensures preferences == Minimal && !isVisible && showSettings == old(showSettings)
      ensures events == old(events) + [GdprEvent] && keysRead == old(keysRead)
      ensures old(NecessaryGranted()) ==> NecessaryGranted()
    {
      var minimal := Minimal;
      storage := storage[GdprKey := Stringify(minimal)];
      preferences := minimal;
      isVisible := false;
      events := events + [GdprEvent];
    }

    /** The Customize button opens the settings panel. */
    method OpenSettings()
      modifies this`showSettings
      ensures showSettings
    {
      showSettings := true;
    }

    /** The close button of the settings panel. */
    method CloseSettings()
      modifies this`showSettings
      ensures !showSettings
    {
      showSettings := false;
    }

    /** The analytics checkbox changes that category only. */
    method ToggleAnalytics(checked: bool)
      modifies this`preferences
      ensures preferences == old(preferences).(analytics := checked)
      ensures old(NecessaryGranted()) ==> NecessaryGranted()
    {
      preferences := preferences.(analytics := checked);
    }

    /** The marketing checkbox changes that category only. */
    method ToggleMarketing(checked: bool)
      modifies this`preferences
      ensures preferences == old(preferences).(marketing := checked)
      ensures old(NecessaryGranted()) ==> NecessaryGranted()
    {
      preferences := preferences.(marketing := checked);
    }

    /** The functional checkbox changes that category only. */
    method ToggleFunctional(checked: bool)
      modifies this`preferences
      ensures preferences == old(preferences).(functional := checked)
      ensures old(NecessaryGranted()) ==> NecessaryGranted()
    {
      preferences := preferences.(functional := checked);
    }

    /** The necessary checkbox is disabled and its handler does nothing. */
    method ToggleNecessary(checked: bool)
      ensures preferences == old(preferences) && storage == old(storage) && events == old(events)
    {
    }
  }

  /**
   * A visitor who rejects everything and comes back sees the banner hidden
   * and only the necessary category granted, whatever they had toggled.
   */
  method RejectThenRevisit(cfg: SiteConfig, storage0: map<string, StoredValue>, analytics: bool)
    returns (visible: bool, restored: Preferences)
    requires IsTrue(cfg.gdprBannerEnabled)
    ensures !visible && restored == Minimal
  {
    var first := new GdprBanner(storage0, []);
    first.ToggleAnalytics(analytics);
    first.RejectAll();
    var second := new GdprBanner(first.storage, first.events);
    second.Mount(cfg);
    RestoreStringify(Minimal, DefaultPreferences);
    visible, restored := second.isVisible, second.preferences;
  }

  /**
   * A visitor who accepts everything and comes back sees the banner hidden
   * and all four categories restored from storage, not the defaults a new
   * banner starts with.
   */
  method AcceptThenRevisit(cfg: SiteConfig, storage0: map<string, StoredValue>)
    returns (visible: bool, restored: Preferences)
    requires IsTrue(cfg.gdprBannerEnabled)
    ensures !visible && restored == AllAccepted && restored != DefaultPreferences
  {
    var first := new GdprBanner(storage0, []);
    first.AcceptAll();
    var second := new GdprBanner(first.storage, first.events);
    second.Mount(cfg);
    RestoreStringify(AllAccepted, DefaultPreferences);
    visible, restored := second.isVisible, second.preferences;
  }
}
