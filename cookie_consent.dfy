/**
 * The consent state machine of `components/CookieConsent.tsx`: the banner
 * and settings flags, the consent being edited and the stored preference.
 */
module CookieConsent {
  import opened Wrappers

  datatype Category = Essential | Analytics | Functional | Marketing

  datatype ConsentState = ConsentState(essential: bool, analytics: bool, functional: bool, marketing: bool)

  function Get(c: ConsentState, cat: Category): bool {
    match cat
    case Essential => c.essential
    case Analytics => c.analytics
    case Functional => c.functional
    case Marketing => c.marketing
  }

  /** The consent the component starts from: essential only. */
  const InitialConsent := ConsentState(true, false, false, false)
  /** What "Accept All" saves. */
  const AllAccepted := ConsentState(true, true, true, true)
  /** What "Reject All" saves. */
  const Rejected := ConsentState(true, false, false, false)

  /**
   * `toggleCategory`: essential cannot be switched; any other category is
   * flipped and the rest are kept.
   */
  function Toggle(c: ConsentState, cat: Category): (r: ConsentState)
    ensures cat == Essential ==> r == c
    ensures cat != Essential ==> Get(r, cat) == !Get(c, cat)
    ensures forall other :: other != cat ==> Get(r, other) == Get(c, other)
    ensures r.essential == c.essential
  {
    match cat
    case Essential => c
    case Analytics => c.(analytics := !c.analytics)
    case Functional => c.(functional := !c.functional)
    case Marketing => c.(marketing := !c.marketing)
  }

  /** Toggling one category twice restores the consent. */
  lemma ToggleTwice(c: ConsentState, cat: Category)
    ensures Toggle(Toggle(c, cat), cat) == c
  {
  }

  /** The component's state; `stored` is the `localStorage` item. */
  class Banner {
    var consent: ConsentState
    var isVisible: bool
    var showSettings: bool
    var stored: Option<ConsentState>
    /** The parent's `isOpenManual` flag, cleared through `onCloseManual`. */
    var manualOpen: bool

    /** Essential consent holds in the edited value and in the stored one. */
    ghost predicate Valid()
      reads this
    {
      consent.essential && (stored.Some? ==> stored.value.essential)
    }

    /** The banner proper (not the settings dialog) is on screen. */
    predicate BannerShown()
      reads this
    {
      isVisible && !showSettings
    }

    /** The state before mounting, over whatever the browser already stores. */
    constructor (initialStored: Option<ConsentState>)
      ensures consent == InitialConsent && !isVisible && !showSettings && !manualOpen
      ensures stored == initialStored
      ensures Valid() <==> (initialStored.Some? ==> initialStored.value.essential)
    {
      consent := InitialConsent;
      isVisible := false;
      showSettings := false;
      stored := initialStored;
      manualOpen := false;
    }

    /** The mount effect: show the banner when nothing is stored, else load the stored consent. */
    method Mount()
      requires Valid()
      modifies this
      ensures Valid()
      ensures stored == old(stored) && showSettings == old(showSettings) && manualOpen == old(manualOpen)
      ensures stored.None? ==> isVisible && consent == old(consent)
      ensures stored.Some? ==> consent == stored.value && isVisible == old(isVisible)
    {
      if stored.None? {
        isVisible := true;
      } else {
        consent := stored.value;
      }
    }

    /** The parent opens the settings (footer link): reload the stored consent, show the dialog. */
    method OpenManual()
      requires Valid()
      modifies this
      ensures Valid()
      ensures manualOpen && showSettings
      ensures consent == if stored.Some? then stored.value else old(consent)
      ensures stored == old(stored) && isVisible == old(isVisible)
    {
      manualOpen := true;
      if stored.Some? {
        consent := stored.value;
      }
      showSettings := true;
    }

    /** "Customize" on the banner. */
    method Customize()
      requires Valid()
      modifies this`showSettings
      ensures Valid() && showSettings
    {
      showSettings := true;
    }

    /** "Read Privacy Policy" on the banner hides it (the navigation itself is the parent's). */
    method OpenPrivacy()
      requires Valid()
      modifies this`isVisible
      ensures Valid() && !isVisible
    {
      isVisible := false;
    }

    method ToggleCategory(cat: Category)
      requires Valid()
      modifies this`consent
      ensures Valid()
      ensures consent == Toggle(old(consent), cat)
    {
      if cat == Essential {
        return;
      }
      consent := Toggle(consent, cat);
    }

    /**
     * `savePreferences`: store and apply `c`, hide both banner and dialog.
     * Essential consent survives exactly when `c` keeps it.
     */
    method SavePreferences(c: ConsentState)
      modifies this
      ensures stored == Some(c) && consent == c
      ensures !isVisible && !showSettings && !manualOpen
      ensures Valid() <==> c.essential
    {
      stored := Some(c);
      consent := c;
      isVisible := false;
      showSettings := false;
      manualOpen := false;
    }

    method AcceptAll()
      requires Valid()
      modifies this
      ensures Valid()
      ensures consent == AllAccepted && stored == Some(consent)
      ensures !isVisible && !showSettings && !manualOpen
    {
      SavePreferences(AllAccepted);
    }

    method RejectNonEssential()
      requires Valid()
      modifies this
      ensures Valid()
      ensures consent == Rejected && stored == Some(consent)
      ensures !isVisible && !showSettings && !manualOpen
    {
      SavePreferences(Rejected);
    }

    /** "Save Preferences" in the dialog saves the consent being edited. */
    method SaveCurrent()
      requires Valid()
      modifies this
      ensures Valid()
      ensures consent == old(consent) && stored == Some(consent)
      ensures !isVisible && !showSettings && !manualOpen
    {
      SavePreferences(consent);
    }

    /**
     * The dialog's close button and "Cancel": hide the dialog and show the
     * banner again when nothing is stored yet. The edited consent is kept.
     */
    method CloseSettings()
      requires Valid()
      modifies this
      ensures Valid()
      ensures !showSettings && !manualOpen
      ensures isVisible == (old(isVisible) || stored.None?)
      ensures stored == old(stored) && consent == old(consent)
      ensures stored.None? ==> BannerShown()
    {
      showSettings := false;
      manualOpen := false;
      if stored.None? {
        isVisible := true;
      }
    }
  }
}
