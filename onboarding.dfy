/**
 * The `Onboarding` class: the installed/not-installed state chosen at
 * construction, the download URL it resolves and caches, and
 * `startOnboarding` with its session-storage guard.
 *
 * The browser is a `BrowserContext` holding the page's session storage and
 * a log of the URLs passed to `window.open`. `window.conflux`, the browser
 * name, `location.host` and the order of the store probe's callbacks are
 * inputs.
 */
module PortalOnboarding {

  import opened Wrappers
  import opened SessionStorage
  import opened DownloadUrl
  import opened StoreProbe

  /** The two states the class ever enters. */
  datatype OnboardingState = Installed | NotInstalled

  /** Session storage keys. */
  const OnboardingInProgress: string := "ONBOARDING_IN_PROGRESS"
  const PortalDownloadUrl: string := "PORTAL_DOWNLOAD_URL"

  /**
   * `isConfluxPortalInstalled`. `conflux` is `window.conflux`: None when it
   * is absent (or falsy), Some(b) where b is the truthiness of its
   * `isConfluxPortal` property.
   */
  function IsConfluxPortalInstalled(conflux: Option<bool>): bool
  {
    match conflux
    case None => false
    case Some(isConfluxPortal) => isConfluxPortal
  }

  /**
   * The value the promise returned by `_getDownloadUrl` settles to, when the
   * constructor read `sessionUrl` from session storage and the store probe
   * has reached `probe`; None while that promise is still pending, which is
   * only when it awaits a probe that has not settled. `this.downloadUrl` is
   * still undefined when the constructor calls `_getDownloadUrl`.
   */
  function Resolution(sessionUrl: Option<string>, name: string, probe: Option<bool>, host: string): (r: Option<string>)
    ensures r.None? <==> !Truthy(sessionUrl) && IsChromiumFamily(name) && probe.None?
    ensures r.Some? ==> r.value != ""
    ensures Truthy(sessionUrl) ==> r == sessionUrl
    ensures r.Some? && !Truthy(sessionUrl) ==>
              r.value in ExtensionDownloadUrl.Values &&
              (IsChromiumFamily(name) ==> (r.value == ChromeStoreUrl <==> probe == Some(true)))
  {
    if !Truthy(sessionUrl) && IsChromiumFamily(name) && probe.None? then None
    else
      Some(GetDownloadUrl(None, sessionUrl, name, probe == Some(true), host).url)
  }

  /** `n` copies of `x`. */
  function Repeat<T>(x: T, n: nat): seq<T>
  {
    seq(n, _ => x)
  }

  /** The page: its session storage and the URLs handed to `window.open` (None for `undefined`). */
  class BrowserContext {
    var sessionStorage: Storage
    var openedUrls: seq<Option<string>>

    constructor (storage: Storage)
      ensures sessionStorage == storage && openedUrls == []
    {
      sessionStorage := storage;
      openedUrls := [];
    }

    /** `sessionStorage.setItem(key, value)`. */
    method SetItem(key: string, value: string)
      modifies this`sessionStorage
      ensures sessionStorage == old(sessionStorage)[key := value]
    {
      sessionStorage := sessionStorage[key := value];
    }

    /** `count` calls `window.open(url, '_blank')`. */
    method Open(url: Option<string>, count: nat)
      modifies this`openedUrls
      ensures openedUrls == old(openedUrls) + Repeat(url, count)
    {
      openedUrls := openedUrls + Repeat(url, count);
    }
  }

  /**
   * What `this.downloadUrl` holds: nothing (the installed state), the pending
   * promise of `_getDownloadUrl`, or the resolved URL. The pending promise
   * keeps what `_getDownloadUrl` read before its first `await`: the
   * session-stored URL and the browser name the user-agent parser reported;
   * it also counts the `window.open` reactions queued on it.
   */
  datatype DownloadUrlSlot =
    | Undefined
    | Pending(sessionUrl: Option<string>, browserName: string, waitingOpens: nat)
    | Ready(url: string)

  /**
   * One `window.open` of the URL the slot will hold, given the tabs opened
   * so far: immediate for a resolved URL or `undefined`, queued on a pending
   * promise.
   */
  function AfterOpen(slot: DownloadUrlSlot, tabs: seq<Option<string>>): (DownloadUrlSlot, seq<Option<string>>)
  {
    match slot
    case Undefined => (slot, tabs + [None])
    case Ready(url) => (slot, tabs + [Some(url)])
    case Pending(sessionUrl, name, waiting) => (Pending(sessionUrl, name, waiting + 1), tabs)
  }

  class Onboarding {
    const browser: BrowserContext
    const state: OnboardingState
    var downloadUrl: DownloadUrlSlot

    /**
     * Only a not-installed instance resolves a URL, and a resolved URL is a
     * truthy string that session storage holds as well.
     */
    ghost predicate Valid()
      reads this, browser
    {
      (state == Installed <==> downloadUrl.Undefined?) &&
      (downloadUrl.Ready? ==>
         downloadUrl.url != "" &&
         GetItem(browser.sessionStorage, PortalDownloadUrl) == Some(downloadUrl.url))
    }

    /** Calls of `_openDownloadPage` so far: tabs opened plus reactions still waiting on the URL. */
    ghost function OpenRequests(): nat
      reads this, browser
    {
      |browser.openedUrls| + if downloadUrl.Pending? then downloadUrl.waitingOpens else 0
    }

    /**
     * The constructor: the state follows `window.conflux`; a not-installed
     * instance starts `_getDownloadUrl`, which runs up to its first `await`
     * at once (reading the session-stored URL and parsing the user agent,
     * whose browser name is `browserName`) and leaves `this.downloadUrl` a
     * pending promise.
     */
    constructor (browser: BrowserContext, conflux: Option<bool>, browserName: string)
      ensures this.browser == browser && Valid()
      ensures state == Installed <==> conflux == Some(true)
      ensures downloadUrl == if state == Installed then Undefined
                             else Pending(GetItem(browser.sessionStorage, PortalDownloadUrl), browserName, 0)
    {
      this.browser := browser;
      state := if IsConfluxPortalInstalled(conflux) then Installed else NotInstalled;
      if IsConfluxPortalInstalled(conflux) {
        downloadUrl := Undefined;
      } else {
        downloadUrl := Pending(GetItem(browser.sessionStorage, PortalDownloadUrl), browserName, 0);
      }
    }

    /**
     * The callback the constructor chains on `_getDownloadUrl`, followed by
     * the `window.open` reactions queued behind it: once the promise settles,
     * `this.downloadUrl` and session storage both hold the URL and every
     * queued open uses it. A promise settles once, so later calls change
     * nothing. The probe's callback order and `location.host`, read after the
     * `await`, are inputs here.
     */
    method SettleDownloadUrl(probeEvents: seq<ProbeEvent>, host: string)
      requires Valid()
      modifies this`downloadUrl, browser
      ensures Valid() && OpenRequests() == old(OpenRequests())
      ensures old(downloadUrl).Pending? &&
              Resolution(old(downloadUrl).sessionUrl, old(downloadUrl).browserName, RaceOutcome(probeEvents), host).Some? ==>
                var url := Resolution(old(downloadUrl).sessionUrl, old(downloadUrl).browserName, RaceOutcome(probeEvents), host).value;
                && downloadUrl == Ready(url)
                && browser.sessionStorage == old(browser.sessionStorage)[PortalDownloadUrl := url]
                && browser.openedUrls == old(browser.openedUrls) + Repeat(Some(url), old(downloadUrl).waitingOpens)
      ensures !(old(downloadUrl).Pending? &&
                Resolution(old(downloadUrl).sessionUrl, old(downloadUrl).browserName, RaceOutcome(probeEvents), host).Some?) ==>
                && downloadUrl == old(downloadUrl)
                && browser.sessionStorage == old(browser.sessionStorage)
                && browser.openedUrls == old(browser.openedUrls)
    {
      if !downloadUrl.Pending? {
        return;
      }
      var sessionUrl, name, waiting := downloadUrl.sessionUrl, downloadUrl.browserName, downloadUrl.waitingOpens;
      var probe: Option<bool> := None;
      if !Truthy(sessionUrl) && IsChromiumFamily(name) {
        probe := CanAccessChromeWebStore(probeEvents);
        if probe.None? {
          return;
        }
      }
      var url := GetDownloadUrl(None, sessionUrl, name, probe == Some(true), host).url;
      downloadUrl := Ready(url);
      browser.SetItem(PortalDownloadUrl, url);
      browser.Open(Some(url), waiting);
    }

    /**
     * `_openDownloadPage`: opens the download URL once it is known. It opens
     * at once when the URL is resolved, queues the open when resolution is
     * pending, and opens `undefined` in the installed state.
     */
    method OpenDownloadPage()
      requires Valid()
      modifies this`downloadUrl, browser`openedUrls
      ensures Valid() && OpenRequests() == old(OpenRequests()) + 1
      ensures (downloadUrl, browser.openedUrls) == AfterOpen(old(downloadUrl), old(browser.openedUrls))
    {
      match downloadUrl
      case Undefined =>
        assert Repeat<Option<string>>(None, 1) == [None];
        browser.Open(None, 1);
      case Ready(url) =>
        assert Repeat(Some(url), 1) == [Some(url)];
        browser.Open(Some(url), 1);
      case Pending(sessionUrl, name, waiting) =>
        downloadUrl := Pending(sessionUrl, name, waiting + 1);
    }

    /**
     * `startOnboarding`: when the in-progress flag is truthy nothing happens;
     * otherwise the flag is set to "true", one open is requested and the flag
     * is left as "false", which is truthy, so every later call in the same
     * session does nothing.
     */
    method StartOnboarding()
      requires Valid()
      modifies this`downloadUrl, browser
      ensures Valid()
      ensures Truthy(GetItem(browser.sessionStorage, OnboardingInProgress))
      ensures Truthy(GetItem(old(browser.sessionStorage), OnboardingInProgress)) ==>
                && browser.sessionStorage == old(browser.sessionStorage)
                && browser.openedUrls == old(browser.openedUrls)
                && downloadUrl == old(downloadUrl)
      ensures !Truthy(GetItem(old(browser.sessionStorage), OnboardingInProgress)) ==>
                && browser.sessionStorage == old(browser.sessionStorage)[OnboardingInProgress := "false"]
                && (downloadUrl, browser.openedUrls) == AfterOpen(old(downloadUrl), old(browser.openedUrls))
                && OpenRequests() == old(OpenRequests()) + 1
    {
      if Truthy(GetItem(browser.sessionStorage, OnboardingInProgress)) {
        return;
      }
      browser.SetItem(OnboardingInProgress, BoolString(true));
      OpenDownloadPage();
      browser.SetItem(OnboardingInProgress, BoolString(false));
      StoredBoolIsTruthy(old(browser.sessionStorage)[OnboardingInProgress := BoolString(true)],
                         OnboardingInProgress, false);
    }
  }

  /**
   * A page without the extension, a fresh session, Chrome with a reachable
   * store: `startOnboarding` twice, then the URL settles. One tab is opened,
   * on the Chrome Web Store, and the session remembers the URL.
   */
  method OnboardChromeTwice(host: string) returns (tabs: seq<Option<string>>, stored: Option<string>)
    ensures tabs == [Some(ChromeStoreUrl)]
    ensures stored == Some(ChromeStoreUrl)
  {
    var page := new BrowserContext(map[]);
    var onboarding := new Onboarding(page, None, "Chrome");
    onboarding.StartOnboarding();
    assert onboarding.downloadUrl == Pending(None, "Chrome", 1) && page.openedUrls == [];
    onboarding.StartOnboarding();
    onboarding.SettleDownloadUrl([FetchRejected, TimerFired], host);
    tabs := page.openedUrls;
    stored := GetItem(page.sessionStorage, PortalDownloadUrl);
  }
}
