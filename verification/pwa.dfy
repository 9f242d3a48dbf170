/** The install state of src/hooks/usePWA.js: the stored install prompt and
    the two flags, updated by the browser's install events and by
    `installPWA`. */
module Pwa {
  import opened Common

  /** A `beforeinstallprompt` event, known by an identifier. */
  datatype PromptEvent = PromptEvent(id: nat)

  /** How the prompt ended: the user's choice, or an exception with its message. */
  datatype Outcome = Accepted | Dismissed | Threw(message: string)

  const NotAvailable: string := "Install prompt not available"
  const UserDismissed: string := "User dismissed install prompt"

  /** The result `installPWA` reports, as a function of whether a prompt is
      stored and how it ended: it succeeds exactly when a prompt is held and
      accepted, and a missing prompt is reported before anything else. */
  function InstallResult(hasPrompt: bool, outcome: Outcome): (r: Result<(), string>)
    ensures r.Success? <==> hasPrompt && outcome == Accepted
    ensures !hasPrompt ==> r == Failure(NotAvailable)
    ensures hasPrompt && outcome == Dismissed ==> r == Failure(UserDismissed)
    ensures hasPrompt && outcome.Threw? ==> r == Failure(outcome.message)
  {
    if !hasPrompt then Failure(NotAvailable)
    else match outcome
      case Accepted => Success(())
      case Dismissed => Failure(UserDismissed)
      case Threw(m) => Failure(m)
  }

  class InstallState {
    var deferredPrompt: Option<PromptEvent>
    var isInstallable: bool
    var isInstalled: bool

    /** The app offers installation exactly while it holds a prompt. */
    ghost predicate Valid()
      reads this
    {
      isInstallable <==> deferredPrompt.Some?
    }

    /** Mounting the hook (src/hooks/usePWA.js:4-12): `standalone` is whether
        the display mode is standalone. */
    constructor(standalone: bool)
      ensures Valid()
      ensures deferredPrompt.None? && !isInstallable && isInstalled == standalone
    {
      deferredPrompt := None;
      isInstallable := false;
      isInstalled := standalone;
    }

    /** `handleBeforeInstallPrompt` (src/hooks/usePWA.js:15-19). */
    method BeforeInstallPrompt(e: PromptEvent)
      requires Valid()
      modifies this
      ensures Valid()
      ensures deferredPrompt == Some(e) && isInstallable && isInstalled == old(isInstalled)
    {
      deferredPrompt := Some(e);
      isInstallable := true;
    }

    /** `handleAppInstalled` (src/hooks/usePWA.js:22-26). */
    method AppInstalled()
      requires Valid()
      modifies this
      ensures Valid()
      ensures isInstalled && !isInstallable && deferredPrompt.None?
    {
      isInstalled := true;
      isInstallable := false;
      deferredPrompt := None;
    }

    /** `installPWA()` (src/hooks/usePWA.js:37-58); `outcome` is the prompt's result. */
    method Install(outcome: Outcome) returns (r: Result<(), string>)
      requires Valid()
      modifies this
      ensures Valid()
      ensures r == InstallResult(old(deferredPrompt).Some?, outcome)
      ensures r.Success? ==> deferredPrompt.None? && !isInstallable && isInstalled
      ensures r.Failure? ==> unchanged(this)
    {
      if deferredPrompt.None? {
        return Failure(NotAvailable);
      }
      match outcome {
        case Accepted =>
          deferredPrompt := None;
          isInstallable := false;
          isInstalled := true;
          r := Success(());
        case Dismissed =>
          r := Failure(UserDismissed);
        case Threw(m) =>
          r := Failure(m);
      }
    }
  }
}
