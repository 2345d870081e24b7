# BrowserTab plugin — a Dafny model

This project models the Android side of the Cordova BrowserTab plugin. The plugin
lets script in a web view open a URL in an in-app custom tab. It has two parts:

- the **capability probe** `findCustomTabBrowser`. It asks the package manager for
  services that handle the custom-tabs connection intent and takes the package name
  of the first entry. The two fields `mFindCalled` and `mCustomTabsBrowser` cache a
  hit.
- the **action dispatcher** `execute`. It maps `isAvailable`, `openUrl` and `close`
  to resolutions of the invocation's `CallbackContext` and, for `openUrl`, a tab
  launch.

Files:

- `platform.dfy` (module `Platform`): the values exchanged with the collaborators.
  These are the package manager's answer (a nullable list of nullable
  `ResolveInfo`s whose `serviceInfo` and `packageName` may be null), JSON
  arguments, callback resolutions, launches, the ordered `Event` log that interleaves
  the last two, and the three error messages.
- `prober.dfy` (module `Prober`): the probe as a function `Probe` of the cache and
  the platform's answer, plus lemmas about single probes and runs of probes.
- `dispatcher.dfy` (module `Dispatcher`): `IsAvailable`, `OpenUrl` and `Execute` as
  functions giving the outcome of one invocation, including its events in the order
  they happen. `Run` chains invocations, and the lemmas give the resolution shapes
  and the exact number of platform queries.
- `browser_tab.dfy` (module `BrowserTabPlugin`): the imperative model. The class
  `BrowserTab` has fields `findCalled` and `customTabsBrowser`, a query counter and
  an ordered log of the resolutions it sends and the tabs it launches. The class
  `CallbackContext` holds the resolutions it receives. Each method's
  `ensures` ties the new state and the logs to the function that specifies it. Three
  client methods show caching, re-querying and inert actions on a fresh plugin.

Where the code's behaviour differs from what one might expect of the plugin's
design, the model follows the code:

- A miss is never cached. A null or empty list, a null first entry or a null
  `serviceInfo` makes the probe return null with `mFindCalled` still false, so the
  next probe queries again. "Queried at most once" therefore holds only from the
  first hit on (`Dispatcher.QueryCountFromFresh` gives the exact count).
- A hit whose `packageName` is null is cached as null forever. `isAvailable` then
  reports false and never queries again.
- `close` returns true and resolves nothing.
- `openUrl` with a readable URL and no provider resolves twice. It sends the
  missing-provider error, then launches the tab regardless, then sends success.

Inputs that the code gets from its environment are parameters here. The package
manager's answer is passed to each call as `answer`; it is read only when a query
is actually issued. The toolbar colour, which the code looks up on every `openUrl`
that reaches the launch, is passed as `color`.

## Model

| member | source | states |
|---|---|---|
| `Prober.Probe` | src/android/BrowserTab.java:73-95 | the platform is queried exactly when nothing is cached; a cached result is returned unchanged and never replaced; a usable answer caches and returns the first entry's package name; an unusable answer returns null and leaves the cache as it was; the cache invariant is kept |
| `Prober.ResolvedIgnoresLaterEntries` | src/android/BrowserTab.java:86-91 | only entry 0 of the list decides the result; with a non-null `serviceInfo` it is that entry's package name |
| `Prober.MissIsRetried` | src/android/BrowserTab.java:81-89 | after an unusable answer the probe returns null, and the next probe queries again exactly as from the original state |
| `Prober.ProbeRunFromCached` | src/android/BrowserTab.java:74-76 | from a cached state any number of probes issue no query, keep the cache, and all return the cached package |
| `Prober.ProbeRunFromUncached` | src/android/BrowserTab.java:73-95 | from an uncached state, probes query up to and including the first usable answer and never after; earlier probes return null; later ones all return that answer's first package name, which ends up cached |
| `Dispatcher.IsAvailable` | src/android/BrowserTab.java:97-104 | exactly one OK resolution carrying whether a package is known (cached, or found in this query); no launch; the cache moves as the probe moves it |
| `Dispatcher.OpenUrl` | src/android/BrowserTab.java:106-143 | no arguments: one "URL argument missing" error, no probe, no launch; unreadable first argument: one "URL argument is not a string" error, no probe, no launch; otherwise one probe, then the missing-provider error exactly when the probe found no package, then one launch of that URL with the colour, then success |
| `Dispatcher.Execute` | src/android/BrowserTab.java:57-71 | handled exactly for the three known actions; `isAvailable` resolves once with OK; `openUrl` resolves once or, with the missing-provider error, twice, in the listed shapes; `close` and unknown actions leave cache and callback untouched; only a probing call changes the cache |
| `Dispatcher.ExecuteResolutions` | src/android/BrowserTab.java:57-143 | one invocation resolves its callback iff the action is `isAvailable` or `openUrl`, at most twice and twice only as the missing-provider error then success; it launches at most once, and a launch is always directly followed by success |
| `Dispatcher.RunShapes` | src/android/BrowserTab.java:57-143 | in any sequence of invocations, a callback is resolved iff the action is `isAvailable` or `openUrl`, at most twice, and twice only as the missing-provider error followed by success with a launch |
| `Dispatcher.RunFromCached` | src/android/BrowserTab.java:74-76 | once a provider is cached, no later invocation queries the platform, the cache stays fixed, and every `isAvailable` reports it |
| `Dispatcher.RunFollowsProber` | src/android/BrowserTab.java:97-126 | the dispatcher's final cache and query count equal those of the probe run on the answers of its probing invocations |
| `Dispatcher.QueryCountFromFresh` | src/android/BrowserTab.java:53-95 | from a fresh plugin the number of platform queries is the number of probing invocations up to and including the first usable answer, or all of them if none is usable |
| `Dispatcher.KnownProviderIsFinal` | src/android/BrowserTab.java:53-54 | under the invariant the object keeps (nothing cached before a find), a known provider package is cached: no later invocation queries the platform or changes the cache |
| `BrowserTabPlugin.BrowserTab.constructor` | src/android/BrowserTab.java:53-54 | a new plugin has nothing found, nothing cached, no query and an empty event log |
| `BrowserTabPlugin.BrowserTab.FindCustomTabBrowser` | src/android/BrowserTab.java:73-95 | returns and caches as `Probe` says; the query counter grows by one exactly when nothing was cached; the event log is unchanged |
| `BrowserTabPlugin.BrowserTab.IsAvailable` | src/android/BrowserTab.java:97-104 | cache, event log, callback log and query counter change as `Dispatcher.IsAvailable` says |
| `BrowserTabPlugin.BrowserTab.OpenUrl` | src/android/BrowserTab.java:106-143 | cache, event log (in the source's order of error, launch and success), callback log and query counter change as `Dispatcher.OpenUrl` says |
| `BrowserTabPlugin.BrowserTab.Execute` | src/android/BrowserTab.java:57-71 | the returned flag, cache, event log, callback log and query counter are as `Dispatcher.Execute` says |
| `BrowserTabPlugin.AvailabilityIsCached` | src/android/BrowserTab.java:74-76 | on a fresh plugin whose first answer is usable, two `isAvailable` calls report the same result, and only one query is issued whatever the second answer would be |
| `BrowserTabPlugin.MissIsRequeried` | src/android/BrowserTab.java:82-89 | on a fresh plugin whose first answer is unusable, `isAvailable` reports false and the next `isAvailable` queries again and reports the new answer |
| `BrowserTabPlugin.CloseAndUnknownAreInert` | src/android/BrowserTab.java:63-67 | `close` is handled and an unknown action is not; neither resolves the callback, produces an event or queries the platform |

## Left out

- `PackageManager.queryIntentServices`, the service `Intent` and the `ResolveInfo` internals are platform calls. Their answer is the parameter `answer`, reduced to the fields the probe reads.
- `CustomTabsIntent.Builder`, `launchUrl` and `Uri.parse` are library and UI calls. A launch is an appended `Launched(Launch(url, color))` event. Exceptions these calls could throw (an unparsable URI, no activity to handle the intent) are not modelled.
- The `CUSTOM_TAB_COLOR_RGB` resource lookup and `Color.parseColor` are library code. The colour is an opaque `ToolbarColor` parameter. Their exceptions are not modelled: `getString` throws when the resource is missing (`getIdentifier` then returns 0), and `parseColor` throws for a malformed colour string. Either happens after the probe and after any missing-provider error, and leaves no launch and no success, where the model shows both.
- The coercion rules of `JSONArray.getString` belong to the JSON library. Each argument carries the string it yields, or nothing where it throws.
- Cordova's own handling of a second resolution of a finished callback belongs to Cordova. The log records every resolution the plugin sends.
- `Log.d` calls only write diagnostics, and `RC_OPEN_URL` is unused.
- A null action string or a null argument array is not modelled. Both come from Cordova's bridge, which never passes null.
- Concurrency is not modelled: the code has no locking and is modelled as sequential.
