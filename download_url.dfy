/**
 * Choice of the extension download page: the constant table of download
 * URLs, the browser-key decision and the precedence between an in-memory
 * URL, a session-stored URL and browser detection.
 *
 * The user-agent parser is outside the model: the browser name it reports is
 * an input, and so are the outcome of the store reachability probe and
 * `location.host`.
 */
module DownloadUrl {

  import opened Wrappers
  import opened SessionStorage

  const ChromeStoreUrl: string :=
    "https://chrome.google.com/webstore/detail/conflux-portal/opafkgfpaamecojfkaialabagfofilmg"
  const FirefoxAddonUrl: string := "https://addons.mozilla.org/en-US/firefox/addon/conflux-portal/"
  const VendorSiteUrl: string := "https://portal.conflux-chain.org"
  const GithubReleasesUrl: string := "https://github.com/Conflux-Chain/conflux-portal/releases"

  /** The `EXTENSION_DOWNLOAD_URL` table, indexed by the browser key as a string. */
  const ExtensionDownloadUrl: map<string, string> := map[
    "CHROME" := ChromeStoreUrl,
    "FIREFOX" := FirefoxAddonUrl,
    "DEFAULT" := VendorSiteUrl,
    "GITHUB" := GithubReleasesUrl
  ]

  /**
   * The table has exactly the four keys, every entry is a non-empty URL, and
   * distinct keys lead to distinct pages.
   */
  lemma ExtensionDownloadUrlTable()
    ensures ExtensionDownloadUrl.Keys == {"CHROME", "FIREFOX", "DEFAULT", "GITHUB"}
    ensures ExtensionDownloadUrl.Values == {ChromeStoreUrl, FirefoxAddonUrl, VendorSiteUrl, GithubReleasesUrl}
    ensures forall k :: k in ExtensionDownloadUrl ==> ExtensionDownloadUrl[k] != ""
    ensures forall k1, k2 :: k1 in ExtensionDownloadUrl && k2 in ExtensionDownloadUrl && k1 != k2 ==>
              ExtensionDownloadUrl[k1] != ExtensionDownloadUrl[k2]
  {
  }

  /** Browser names (as the user-agent parser reports them) for which the Chrome Web Store is probed. */
  predicate IsChromiumFamily(name: string)
  {
    name == "Chrome" || name == "Chromium"
  }

  /** Hosts of the vendor's own onboarding site, which send users to the GitHub releases page. */
  predicate IsVendorHost(host: string)
  {
    host == "portal.conflux-chain.org" || host == "portal.confluxnetwork.org"
  }

  /** The key `_detectBrowser` returns, and whether it awaited the store probe on the way. */
  datatype Detection = Detection(key: string, probed: bool)

  /**
   * `_detectBrowser`. `storeReachable` is what the store probe would settle
   * to; it only takes part in the decision when `probed` is true, which
   * mirrors the `else if` after the Firefox test and the short-circuit `&&`.
   */
  function DetectBrowser(name: string, storeReachable: bool, host: string): (d: Detection)
    ensures d.key in ExtensionDownloadUrl
    ensures d.probed <==> IsChromiumFamily(name)
  {
    if name == "Firefox" then Detection("FIREFOX", false)
    else if IsChromiumFamily(name) && storeReachable then Detection("CHROME", true)
    else if IsVendorHost(host) then Detection("GITHUB", IsChromiumFamily(name))
    else Detection("DEFAULT", IsChromiumFamily(name))
  }

  /** Firefox always gets the Firefox add-on page, whatever the host, and the probe is not started. */
  lemma FirefoxAlwaysGetsAddonPage(storeReachable: bool, host: string)
    ensures DetectBrowser("Firefox", storeReachable, host) == Detection("FIREFOX", false)
    ensures ExtensionDownloadUrl[DetectBrowser("Firefox", storeReachable, host).key] == FirefoxAddonUrl
  {
  }

  /** Chrome or Chromium with a reachable store gets the Chrome Web Store, whatever the host. */
  lemma ReachableStoreGivesChrome(name: string, host: string)
    requires IsChromiumFamily(name)
    ensures DetectBrowser(name, true, host).key == "CHROME"
    ensures ExtensionDownloadUrl[DetectBrowser(name, true, host).key] == ChromeStoreUrl
  {
  }

  /**
   * Every other case (Chrome or Chromium with an unreachable store, or any
   * other browser than Firefox) is decided by the host alone: two such
   * inputs with the same host get the same key.
   */
  lemma OtherwiseHostDecides(name1: string, reachable1: bool, name2: string, reachable2: bool, host: string)
    requires name1 != "Firefox" && !(IsChromiumFamily(name1) && reachable1)
    requires name2 != "Firefox" && !(IsChromiumFamily(name2) && reachable2)
    ensures DetectBrowser(name1, reachable1, host).key == DetectBrowser(name2, reachable2, host).key
    ensures DetectBrowser(name1, reachable1, host).key == if IsVendorHost(host) then "GITHUB" else "DEFAULT"
  {
  }

  /** Outside Chrome and Chromium the probe's outcome cannot change the decision. */
  lemma ProbeIrrelevantOutsideChromium(name: string, reachable1: bool, reachable2: bool, host: string)
    requires !IsChromiumFamily(name)
    ensures DetectBrowser(name, reachable1, host) == DetectBrowser(name, reachable2, host)
    ensures !DetectBrowser(name, reachable1, host).probed
  {
  }

  /** Every value of the table is a non-empty string, so every detected key is truthy and maps to a truthy URL. */
  lemma DetectedKeyIsTruthy(name: string, storeReachable: bool, host: string)
    ensures DetectBrowser(name, storeReachable, host).key != ""
    ensures ExtensionDownloadUrl[DetectBrowser(name, storeReachable, host).key] != ""
  {
  }

  /** The URL `_getDownloadUrl` settles to, and the detection it ran (None when a cached URL was used). */
  datatype Resolved = Resolved(url: string, detection: Option<Detection>)

  /**
   * `_getDownloadUrl`: a truthy in-memory URL first, then a truthy
   * session-stored URL, and only then the detected key looked up in the table.
   * The `if (browser)` test on the key is kept as written; the key is never
   * empty, so the fallback to the vendor site is never taken.
   */
  function GetDownloadUrl(inMemory: Option<string>, inSession: Option<string>,
                          name: string, storeReachable: bool, host: string): (r: Resolved)
    ensures r.url != ""
    ensures r.detection.Some? <==> !Truthy(inMemory) && !Truthy(inSession)
    ensures r.detection.Some? ==> r.detection.value == DetectBrowser(name, storeReachable, host)
    ensures r.detection.Some? ==> r.url == ExtensionDownloadUrl[r.detection.value.key]
  {
    if Truthy(inMemory) then Resolved(inMemory.value, None)
    else if Truthy(inSession) then Resolved(inSession.value, None)
    else
      var browser := DetectBrowser(name, storeReachable, host);
      if browser.key != "" then Resolved(ExtensionDownloadUrl[browser.key], Some(browser))
      else Resolved(VendorSiteUrl, Some(browser))
  }

  /** A truthy in-memory URL is returned unchanged, without detection. */
  lemma InMemoryUrlWins(inMemory: Option<string>, inSession: Option<string>,
                        name: string, storeReachable: bool, host: string)
    requires Truthy(inMemory)
    ensures GetDownloadUrl(inMemory, inSession, name, storeReachable, host) == Resolved(inMemory.value, None)
  {
  }

  /** Without a truthy in-memory URL, a truthy session-stored URL is returned unchanged, without detection. */
  lemma SessionUrlWins(inMemory: Option<string>, inSession: Option<string>,
                       name: string, storeReachable: bool, host: string)
    requires !Truthy(inMemory) && Truthy(inSession)
    ensures GetDownloadUrl(inMemory, inSession, name, storeReachable, host) == Resolved(inSession.value, None)
  {
  }

  /**
   * When nothing is cached, the URL is the table entry of the detected key,
   * hence one of the four constants.
   */
  lemma DetectedUrlIsTableEntry(inMemory: Option<string>, inSession: Option<string>,
                                name: string, storeReachable: bool, host: string)
    requires !Truthy(inMemory) && !Truthy(inSession)
    ensures GetDownloadUrl(inMemory, inSession, name, storeReachable, host).url
            == ExtensionDownloadUrl[DetectBrowser(name, storeReachable, host).key]
    ensures GetDownloadUrl(inMemory, inSession, name, storeReachable, host).url
            in {ChromeStoreUrl, FirefoxAddonUrl, VendorSiteUrl, GithubReleasesUrl}
  {
  }

  /**
   * Once a resolved URL is written back to session storage, a later
   * resolution in the same session (with any browser, probe outcome and host)
   * returns that same URL and runs no detection.
   */
  lemma StoredUrlIsReused(inSession: Option<string>, name: string, storeReachable: bool, host: string,
                          laterName: string, laterReachable: bool, laterHost: string)
    ensures var first := GetDownloadUrl(None, inSession, name, storeReachable, host);
            GetDownloadUrl(None, Some(first.url), laterName, laterReachable, laterHost) == Resolved(first.url, None)
  {
  }
}
