# Conflux Portal onboarding: download-target decision and onboarding guard

This project models `src/index.js` of the Conflux Portal onboarding helper in
Dafny. A web page embeds the helper to find out whether the Conflux Portal
browser extension is installed. If it is not, the helper picks a download page
for the user's browser and opens it once per session.

The model covers the following:

- the `EXTENSION_DOWNLOAD_URL` table and `_detectBrowser` (`download_url.dfy`, module
  `DownloadUrl`). The browser name is an input, and so are the store probe's
  outcome and `location.host`. The result records whether the probe was consulted.
- `_getDownloadUrl`'s precedence, as a function over the in-memory URL, the
  session-stored URL and the detection inputs (`DownloadUrl.GetDownloadUrl`).
- `_canAccessChromeWebStore` as a promise that settles once (`store_probe.dfy`,
  module `StoreProbe`). The order in which the timer and fetch callbacks run is
  an input. The 3000 ms timer resolves `false`. The fetch resolves `true`,
  whether it is fulfilled or rejected.
- the `Onboarding` class (`onboarding.dfy`, module `PortalOnboarding`):
  - the state chosen at construction;
  - the pending `this.downloadUrl` promise and the callback that stores the resolved URL in memory and in session storage;
  - `_openDownloadPage`;
  - `startOnboarding` with its `ONBOARDING_IN_PROGRESS` guard.
  The page is a `BrowserContext` object. It holds session storage as a
  string-to-string map and logs every `window.open` call.
- session storage reads (`session_storage.dfy`, module `SessionStorage`).
  `getItem` gives `null` or a string; JavaScript truthiness is "present and
  non-empty"; `setItem` of a boolean stores `String(b)`.

Asynchrony: the constructor leaves `this.downloadUrl` as a pending promise.
That promise keeps what `_getDownloadUrl` reads before its first `await`: the
session-stored URL and the browser name from the user-agent parser. It also
counts the `window.open` reactions queued on it.
`Onboarding.SettleDownloadUrl` runs the constructor's `.then` callback and
then the queued opens. It is a no-op unless the promise is pending. It also
does nothing while the probe it depends on has not settled.

`src/index.js` has no release-feed resolver, no release zip-URL builder, no
cache bypass option, no compatibility shim and no vendor-site helper, so the
model has none of them. Nor does it ever clear the onboarding guard. Line 66
does write `false`, but `setItem` stores it as the string "false", which is
truthy. After the first call, `startOnboarding` therefore never opens a page
again in that session, and the model keeps that behaviour.

## Model

| member | source | states |
|---|---|---|
| SessionStorage.GetAfterSet | src/index.js:81-83 | `getItem` after `setItem` reads back the value just written under that key, and every other key reads as before |
| SessionStorage.TruthyAfterSet | src/index.js:84 | under JavaScript truthiness (`Truthy`: present and non-empty), a key just written is truthy exactly when the string written is non-empty |
| SessionStorage.BoolString | src/index.js:64-66 | `String(true)` and `String(false)` are both non-empty strings |
| SessionStorage.StoredBoolIsTruthy | src/index.js:61-66 | after `setItem(key, b)` for any boolean, `getItem(key)` is truthy |
| DownloadUrl.ExtensionDownloadUrlTable | src/index.js:13-19 | `EXTENSION_DOWNLOAD_URL` has exactly the keys `CHROME`, `FIREFOX`, `DEFAULT` and `GITHUB`; every URL is non-empty and distinct keys give distinct URLs |
| DownloadUrl.DetectBrowser | src/index.js:105-123 | the key is always a key of `EXTENSION_DOWNLOAD_URL`; the probe is consulted exactly when the browser is Chrome or Chromium |
| DownloadUrl.FirefoxAlwaysGetsAddonPage | src/index.js:106-108 | Firefox gets `FIREFOX` (the add-on page) for every host and probe outcome, and the probe is not consulted |
| DownloadUrl.ReachableStoreGivesChrome | src/index.js:109-114 | Chrome or Chromium with a reachable store gets `CHROME` (the Web Store URL) for every host |
| DownloadUrl.OtherwiseHostDecides | src/index.js:109-122 | every other case depends on the host only: `GITHUB` for the two vendor hosts, `DEFAULT` for any other host |
| DownloadUrl.ProbeIrrelevantOutsideChromium | src/index.js:107-111 | for a browser other than Chrome or Chromium, the probe outcome never changes the decision |
| DownloadUrl.DetectedKeyIsTruthy | src/index.js:88-92 | the detected key and its table URL are never empty, so the `DEFAULT` fallback at line 92 is unreachable |
| DownloadUrl.GetDownloadUrl | src/index.js:76-94 | the URL is non-empty; detection runs exactly when neither the in-memory URL nor the stored URL is truthy; a detected URL is the table entry of the detected key |
| DownloadUrl.InMemoryUrlWins | src/index.js:77-79 | a truthy in-memory URL is returned unchanged, without detection |
| DownloadUrl.SessionUrlWins | src/index.js:81-86 | otherwise, a truthy session-stored URL is returned unchanged, without detection |
| DownloadUrl.DetectedUrlIsTableEntry | src/index.js:88-90 | when nothing is cached, the URL is one of the four constants of the table |
| DownloadUrl.StoredUrlIsReused | src/index.js:44-46 | once the resolved URL is stored, a later resolution in the session returns it whatever the browser, probe or host |
| StoreProbe.Deliver | src/index.js:126-130 | a settled promise keeps its value through any sequence of later callbacks (proved by induction over the callbacks) |
| StoreProbe.RaceOutcome | src/index.js:125-131 | the probe stays pending until a callback has run; after that its outcome is the first callback's value, `false` for the timer and `true` for the fetch's fulfilment or rejection |
| StoreProbe.SettleOnceCell.constructor | src/index.js:126 | a new promise is pending |
| StoreProbe.SettleOnceCell.Resolve | src/index.js:126-130 | `resolve(v)` settles a pending promise with `v` and leaves a settled one unchanged (`Settle`) |
| StoreProbe.CanAccessChromeWebStore | src/index.js:125-131 | the result is the promise's state after the callbacks run in the given order |
| StoreProbe.ReachableIffFetchFirst | src/index.js:128-130 | the outcome is `true` exactly when the fetch settles, successfully or not, before the timer fires |
| StoreProbe.UnreachableIffTimerFirst | src/index.js:127 | the outcome is `false` exactly when the timer fires before the fetch settles |
| StoreProbe.LaterCallbacksIgnored | src/index.js:126-130 | once the probe has settled, appending callbacks does not change its outcome |
| StoreProbe.Schedule | src/index.js:127-130 | the callback order for given real times: the timer fires once; the fetch settles at most once, rejected or fulfilled as given; the fetch comes first exactly when it settles before 3000 ms |
| StoreProbe.ReachableIffFetchWithinTimeout | src/index.js:127-130 | applies the first-callback law to `Schedule`: the store is reachable exactly when the fetch settles before 3000 ms, successful or not; the timing itself is taken from `Schedule`'s ordering |
| PortalOnboarding.Resolution | src/index.js:76-94 | `_getDownloadUrl` stays pending exactly when it awaits an unsettled probe (Chrome or Chromium, nothing cached); a stored truthy URL is kept; otherwise the URL is a table constant, and for Chrome or Chromium it is the Web Store URL exactly when the probe said reachable |
| PortalOnboarding.BrowserContext.SetItem | src/index.js:46 | `setItem` overwrites one key and leaves the other keys unchanged |
| PortalOnboarding.BrowserContext.Open | src/index.js:70 | `window.open` appends to the log of opened URLs |
| PortalOnboarding.Onboarding.constructor | src/index.js:35-43 | the state is `INSTALLED` exactly when `window.conflux` exists with a truthy `isConfluxPortal` (`IsConfluxPortalInstalled`, lines 101-103); then no URL is resolved; otherwise resolution is pending with the session-stored URL and the browser name, both read before the first `await` |
| PortalOnboarding.Onboarding.SettleDownloadUrl | src/index.js:44-47 | resolution uses the session URL and browser name fixed at construction, with the probe's callback order and the host as inputs; once it completes, `this.downloadUrl` and the `PORTAL_DOWNLOAD_URL` session key both hold the resolved URL, and every queued open uses it; nothing changes otherwise |
| PortalOnboarding.Onboarding.OpenDownloadPage | src/index.js:69-71 | exactly one open request is added (`AfterOpen`): to the resolved URL without waiting on resolution, or to `undefined` in the installed state; while resolution is pending it is queued on the promise, and `SettleDownloadUrl` later opens it with the resolved URL |
| PortalOnboarding.Onboarding.StartOnboarding | src/index.js:60-67 | a truthy in-progress flag makes the call a no-op; otherwise there is exactly one open request and the flag is left as "false"; the flag is truthy afterwards in both cases |
| PortalOnboarding.OnboardChromeTwice | src/index.js:60-67 | two calls on a fresh session, with Chrome and a reachable store, open one tab on the Web Store and store that URL |

## Left out

- The user-agent parser (`Bowser.parse`) is a foreign library, so the browser name it reports is an input.
- Real `fetch`, `setTimeout` and promise or microtask scheduling are not modelled. The order in which the probe's callbacks run is an input. `StoreProbe.Schedule` places a fetch that settles exactly at 3000 ms after the timer; the source does not settle that tie.
- `window.open`, `window.conflux` and `location.host` are I/O. The log of opened URLs and explicit inputs stand in for them.
- The enum states `REGISTERED`, `REGISTERING` and `RELOADING` are declared but never entered; the model has only `Installed` and `NotInstalled`.
- Line 50 binds `this.stopOnboarding`, which does not exist, so constructing a not-installed instance throws a `TypeError` after resolution has started. The model keeps the methods' behaviour, including the pending resolution, and leaves that exception out.
- `getDownloadUrl` (lines 53-55) only wraps `this.downloadUrl` in a promise. It is folded into `Onboarding.OpenDownloadPage` and the `DownloadUrlSlot` datatype rather than modelled as a separate member.
- The `.bind(this)` calls at lines 48-49 only fix `this` for callbacks, so they have no counterpart.
- rollup.config.standalone.js is build configuration and has no logic.
- `src/index.js` has no release-feed resolver, no zip-URL builder and no construction options, so the model has none of them.
- Onboarding.Valid: it speaks about one instance. Two instances on the same page can overwrite each other's `PORTAL_DOWNLOAD_URL`, and the model does not track that.
