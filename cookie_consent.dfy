/**
 * The cookie-consent banner: shown on mount when no choice is stored under
 * `localStorage['cookie-consent']`; Accept and Decline store the choice,
 * hide the banner and dispatch `'cookie-consent-changed'`.
 */
module Cookies {
  import opened Wrappers
  import opened JsString
  import opened Config
  import opened ClientStorage

  const CookieKey: string := "cookie-consent"
  const CookieEvent: string := "cookie-consent-changed"
  const Accepted: string := "accepted"
  const Declined: string := "declined"

  class CookieConsent {
    var isVisible: bool
    /** `localStorage`. */
    var storage: map<string, StoredValue>
    /** The names of the events dispatched on `window`, oldest first. */
    var events: seq<string>
    /** The storage keys read so far, oldest first. */
    ghost var keysRead: seq<string>

    /** Only the cookie-consent key has been read. */
    ghost predicate ReadsOnlyItsKey()
      reads this
    {
      forall i :: 0 <= i < |keysRead| ==> keysRead[i] == CookieKey
    }

    /** What the component renders: nothing when the flag is falsy, else the banner while it is visible. */
    predicate BannerShown(cfg: SiteConfig)
      reads this
      ensures BannerShown(cfg) ==> cfg.cookieConsentEnabled == Some(true)
    {
      IsTrue(cfg.cookieConsentEnabled) && isVisible
    }

    /** The banner starts hidden. */
    constructor (storage0: map<string, StoredValue>, events0: seq<string>)
      ensures !isVisible && storage == storage0 && events == events0 && keysRead == []
      ensures ReadsOnlyItsKey()
    {
      isVisible := false;
      storage := storage0;
      events := events0;
      keysRead := [];
    }

    /**
     * The mount effect. With the flag not exactly `true` nothing is read and
     * the banner stays as it was; otherwise the banner becomes visible when
     * no choice is stored and stays as it was when any value is.
     */
    method Mount(cfg: SiteConfig)
      modifies this
      ensures storage == old(storage) && events == old(events)
      ensures !IsTrue(cfg.cookieConsentEnabled) ==> isVisible == old(isVisible) && keysRead == old(keysRead)
      ensures IsTrue(cfg.cookieConsentEnabled) ==> keysRead == old(keysRead) + [CookieKey]
      ensures IsTrue(cfg.cookieConsentEnabled) ==>
        isVisible == (Unset(storage, CookieKey) || old(isVisible))
      ensures old(ReadsOnlyItsKey()) ==> ReadsOnlyItsKey()
    {
      if !IsTrue(cfg.cookieConsentEnabled) {
        return;
      }
      keysRead := keysRead + [CookieKey];
      if Unset(storage, CookieKey) {
        isVisible := true;
      }
    }

    /** Accept: `'accepted'` stored, banner hidden, one event. */
    method Accept()
      modifies this
      ensures storage == old(storage)[CookieKey := Text(Accepted)]
      ensures !isVisible && events == old(events) + [CookieEvent] && keysRead == old(keysRead)
    {
      storage := storage[CookieKey := Text(Accepted)];
      isVisible := false;
      events := events + [CookieEvent];
    }

    /** Decline: `'declined'` stored, banner hidden, one event. */
    method Decline()
      modifies this
      ensures storage == old(storage)[CookieKey := Text(Declined)]
      ensures !isVisible && events == old(events) + [CookieEvent] && keysRead == old(keysRead)
    {
      storage := storage[CookieKey := Text(Declined)];
      isVisible := false;
      events := events + [CookieEvent];
    }
  }

  /**
   * Once a choice is stored, a later visit with the flag on does not show
   * the banner again; with the flag off the component never shows it.
   */
  method ChooseThenRevisit(cfg: SiteConfig, storage0: map<string, StoredValue>, accept: bool)
    returns (firstShown: bool, secondShown: bool, stored: StoredValue)
    ensures !IsTrue(cfg.cookieConsentEnabled) ==> !firstShown
    ensures IsTrue(cfg.cookieConsentEnabled) ==> (firstShown <==> Unset(storage0, CookieKey))
    ensures !secondShown
    ensures stored == Text(if accept then Accepted else Declined)
  {
    var first := new CookieConsent(storage0, []);
    first.Mount(cfg);
    firstShown := first.BannerShown(cfg);
    if accept {
      first.Accept();
    } else {
      first.Decline();
    }
    stored := first.storage[CookieKey];
    var second := new CookieConsent(first.storage, first.events);
    second.Mount(cfg);
    secondShown := second.BannerShown(cfg);
  }
}
