# Luxafor controller: shared status store and device service

A Dafny model of the part of the Luxafor controller that decides what the shared
device status looks like after any sequence of user intents and status probes.

- `luxafor_state.dfy`, module `LuxaforState`: the shared status store
  (`LuxaforStateManager`). It holds one `DeviceStatus` record
  (`isOnline`, `currentColor`, `lastSeen`, `lastAction`), a duplicate-free,
  insertion-ordered list of listeners, and ghost logs of every listener call
  (`delivered`) and of every listener call that threw and was caught
  (`reported`). `StateStore` is a class whose mutators change the record in
  place and then run the notification loop. The pure functions `Merge`,
  `WithColor` and `WithOnline` give the record each mutator leaves.
- `luxafor_service.dfy`, module `LuxaforService`: the device service
  (`LuxaforService`).
  - Pure parts: the hex normalisation (`NormalizeHex`), the request each
    intent sends (`RequestOf`), the optimistic commit (`Commit`) and the
    second mapping inside `updateCurrentColor` (`ColorUpdate`).
  - Store effects: `BeforeRequest` gives the store after an intent's own step,
    `AfterRequest` after its request, and `AfterAction` after both;
    `DeviceInfoStatus` and `RefreshStatus` give it after the two status checks,
    as the last record of the series each check publishes.
  - What listeners see: `ActionTrace`, `DeviceInfoTrace` and `RefreshTrace`
    list, in order, the records each operation publishes. Every method's
    contract states that the store's `delivered` log grows by
    `Announce(listeners, trace)` (each record broadcast to every listener in
    turn) and `reported` by the failing calls among those.
  - `Service` is a class with the `isRefreshing` flag and a ghost log `sent`
    of every POST. Its methods follow the source statement by statement and
    are proved against those functions.

The POST is not performed. Its outcome is a `Reply` parameter: `Delivered`
with data, or `Rejected` with an optional error message. Each reply carries
the clock reading at which it arrived. Every colour intent also takes `now`,
the clock reading of its optimistic commit.

Behaviour of the code that its comments and names do not suggest:
- `testConnection` changes the colour when the probe is delivered. A
  delivered probe goes through `updateCurrentColor`, which records red with
  the label "Set red", whatever the comment above it says.
- The hex normalisation removes the first `#` wherever it occurs, not only a
  leading one. It neither lower-cases nor checks the characters. So `"##1"`
  normalises to `"#10000"`, and normalising that again gives `"100000"`.
- `forceRefreshStatus` reads `lastAction` after the probe has recorded its
  own label. Its colour guard therefore never fires, and a delivered forced
  refresh ends with the label "Set red", not "Connection Test".
- A delivered `turnOff` ends with the label "Set custom color 000000".
- In `getDeviceInfo` the colour guard also tests `isRefreshing`, but the flag
  has just been reset at that point. The guard therefore depends only on
  whether `lastAction` was empty on entry.

## Model

| member | source | states |
|---|---|---|
| LuxaforState.StateStore.constructor | src/luxafor-state.ts:13-19 | a fresh store is offline, colour "unknown", never seen, empty last action, no listeners |
| LuxaforState.StateStore.GetStatus | src/luxafor-state.ts:30-32 | the snapshot equals the record; it is a value, so later in-place mutations cannot change it |
| LuxaforState.Merge | src/luxafor-state.ts:34-37 | each field present in the partial update takes the given value; every absent field keeps its old value |
| LuxaforState.StateStore.UpdateStatus | src/luxafor-state.ts:34-37 | the record becomes the merge; every listener is called once, in order, with the new record; throwing listeners are reported and the rest still run |
| LuxaforState.SetColorIsFullUpdate | src/luxafor-state.ts:39-45 | `WithColor`, the record setColor leaves, equals updateStatus with all four fields set (online, colour, now, action), so it does not depend on the old record |
| LuxaforState.StateStore.SetColor | src/luxafor-state.ts:39-45 | the record becomes colour, action, lastSeen=now, online; listeners unchanged, each notified once with the new record |
| LuxaforState.SetOnlineKeepsColorAndAction | src/luxafor-state.ts:47-51 | `WithOnline`, the record setOnline leaves, is updateStatus of isOnline and lastSeen only; colour and last action are unchanged |
| LuxaforState.StateStore.SetOnline | src/luxafor-state.ts:47-51 | isOnline and lastSeen=now are set, colour and action kept; each listener notified once with the new record |
| LuxaforState.Added | src/luxafor-state.ts:53-54 | Set.add: the listener is present afterwards, nothing else is added, and no duplicate is created |
| LuxaforState.StateStore.Subscribe | src/luxafor-state.ts:53-54 | the listener list becomes Added(list, l), so a registered listener keeps its place; record and logs unchanged |
| LuxaforState.Without | src/luxafor-state.ts:56-58 | Set.delete: exactly the given listener is removed and the list stays duplicate-free |
| LuxaforState.WithoutCutsOut | src/luxafor-state.ts:56-58 | removing a registered listener cuts out its single position, so the order of the others is kept |
| LuxaforState.WithoutAbsent | src/luxafor-state.ts:56-58 | removing a listener that is not registered leaves the list as it was |
| LuxaforState.StateStore.Unsubscribe | src/luxafor-state.ts:56-58 | the listener list becomes Without(list, l); record and logs unchanged |
| LuxaforState.Broadcast | src/luxafor-state.ts:61-69 | one mutation's calls are one per listener, in list order, all with the same snapshot |
| LuxaforState.StateStore.NotifyListeners | src/luxafor-state.ts:61-69 | the delivered log grows by Broadcast(listeners, record); the reported log grows by exactly the calls that threw |
| LuxaforState.FailuresAreThrows | src/luxafor-state.ts:62-68 | `Failures`, the calls console.error reports: a call is reported if and only if it was made and its listener threw on that snapshot |
| LuxaforState.FailuresConcat | src/luxafor-state.ts:61-69 | the calls reported over two runs of notifications are those of the first run followed by those of the second |
| LuxaforState.AnnounceConcat | src/luxafor-state.ts:61-69 | the calls made for two series of mutations are those of the first series followed by those of the second |
| LuxaforState.ReceivedAnnounce | src/luxafor-state.ts:61-69 | over a series of mutations every registered listener receives exactly the series of records, in order; an unregistered one receives nothing |
| LuxaforState.ReceivedBroadcast | src/luxafor-state.ts:61-69 | with no duplicates, a registered listener receives the post-mutation snapshot exactly once; an unregistered one receives nothing |
| LuxaforState.UnsubscribeSilences | src/luxafor-state.ts:53-69 | after unsubscribe the listener receives nothing from the next mutation; every other listener receives exactly what it would have received |
| LuxaforState.SubscribeTwiceOnce | src/luxafor-state.ts:53-58 | subscribing twice registers once, the listener is notified once, and one unsubscribe removes it entirely |
| LuxaforService.RemoveFirst | src/luxafor-service.ts:99 | replace('#', ''): the input is unchanged without a '#', otherwise exactly the first '#' is cut out |
| LuxaforService.PadEnd | src/luxafor-service.ts:99 | padEnd(6, '0'): the length is max(length, 6), the input is a prefix, and every added character is the fill |
| LuxaforService.NormalizeHex | src/luxafor-service.ts:99 | the result always has 6 characters: the first 6 of the input minus its first '#', right-padded with '0', with no character altered |
| LuxaforService.NormalizeHexPads | src/luxafor-service.ts:99 | "#1" normalises to "100000" |
| LuxaforService.NormalizeHexTruncates | src/luxafor-service.ts:99 | "abcdef12" normalises to "abcdef" |
| LuxaforService.NormalizeHexKeepsCase | src/luxafor-service.ts:99 | "FFF" normalises to "FFF000": case is not changed |
| LuxaforService.NormalizeHexFixedPoint | src/luxafor-service.ts:99 | six characters without '#' are returned unchanged |
| LuxaforService.NormalizeHexNotIdempotent | src/luxafor-service.ts:99 | "##1" gives "#10000", which normalises again to "100000": normalisation is not idempotent |
| LuxaforService.RequestOf | src/luxafor-service.ts:80-131 | every intent sends to solid_color, blink or pattern, with the fields the colour mapping reads |
| LuxaforService.SecondMappingAgrees | src/luxafor-service.ts:50-62 | for every colour intent, the second mapping (`ColorUpdate`, inside updateCurrentColor) gives the colour of the optimistic commit (`Commit`); the label is the same if and only if the intent is not turnOff; the probe maps to red/"Set red" |
| LuxaforService.ResultOf | src/luxafor-service.ts:40-47 | success if and only if delivered, carrying the response data; otherwise the error message, or "Unknown error" for a non-Error rejection |
| LuxaforService.Service.constructor | src/luxafor-service.ts:21-24 | the base URL is https://api.luxafor.<domain>/webhook/v1/actions; the flag is down and nothing has been sent |
| LuxaforService.Service.MakeRequest | src/luxafor-service.ts:26-48 | exactly one POST to base URL/endpoint; a delivered reply applies updateCurrentColor (`AfterRequest`), a rejected one leaves the store and both listener logs alone; never fails |
| LuxaforService.Service.UpdateCurrentColor | src/luxafor-service.ts:50-62 | the record after setColor with the mapped colour and label, announced once to every listener; for any other endpoint the record and the logs are unchanged |
| LuxaforService.Service.TurnOff | src/luxafor-service.ts:80-86 | commits ("000000", "Turn Off"), then sends solid_color {color: custom, custom_color: 000000}; the store ends as AfterAction and the listeners see ActionTrace: the commit, then the delivered update |
| LuxaforService.Service.SetSolidColor | src/luxafor-service.ts:89-94 | commits (c, "Set c"), then sends solid_color {color: c}; store and listener logs as for TurnOff |
| LuxaforService.Service.SetCustomColor | src/luxafor-service.ts:97-107 | commits (h, "Set custom color h") with h the normalised hex, then sends solid_color {color: custom, custom_color: h}; store and listener logs as for TurnOff |
| LuxaforService.Service.Blink | src/luxafor-service.ts:110-115 | commits (c, "Blink c"), then sends blink {color: c}; store and listener logs as for TurnOff |
| LuxaforService.Service.SetPattern | src/luxafor-service.ts:118-123 | commits ("pattern", "Pattern p"), then sends pattern {pattern: p}; store and listener logs as for TurnOff |
| LuxaforService.Service.TestConnection | src/luxafor-service.ts:126-131 | sets only lastAction "Connection Test", then sends solid_color {color: red}; store and listener logs as for TurnOff |
| LuxaforService.ColorIntentOutcome | src/luxafor-service.ts:41-47 | a colour intent (`AfterAction`: `BeforeRequest`, then `AfterRequest`) always leaves its committed colour and marks the device online; a rejected request keeps the optimistic commit exactly, with no rollback |
| LuxaforService.CommitPublishedFirst | src/luxafor-service.ts:80-123 | a colour intent publishes its optimistic commit first, before the request goes out, and a second record only when the request is delivered |
| LuxaforService.TracesEndInStatus | src/luxafor-service.ts:80-188 | the last record each operation publishes is the record it leaves in the store (or the old one when it publishes none) |
| LuxaforService.TurnOffLabel | src/luxafor-service.ts:80-86 | turnOff always leaves colour "000000"; the label is "Set custom color 000000" when delivered and "Turn Off" when rejected; when delivered the listeners see "Turn Off" and then "Set custom color 000000" |
| LuxaforService.TestConnectionOutcome | src/luxafor-service.ts:125-131 | its first published record changes only lastAction; a rejected probe changes only lastAction; a delivered probe sets red/"Set red", despite the comment |
| LuxaforService.ActionRecordsLabel | src/luxafor-service.ts:80-131 | after any intent, lastAction is non-empty |
| LuxaforService.LastColorIntentWins | src/luxafor-service.ts:80-123 | after any sequence of intents that ends in a colour intent, the colour is that intent's committed colour, whatever came before and whatever each request's outcome |
| LuxaforService.ColorSurvivesRejectedProbes | src/luxafor-service.ts:80-131 | the colour a colour intent commits is still the colour after any number of rejected testConnection calls that follow it |
| LuxaforService.DeliveredProbeTurnsRed | src/luxafor-service.ts:126-131 | a run that ends in a delivered testConnection ends red, whatever colour intent came before, so LastColorIntentWins cannot admit delivered probes |
| LuxaforService.Service.GetDeviceInfo | src/luxafor-service.ts:134-163 | with an action recorded and the flag down, it returns the snapshot, sends nothing and notifies nobody; otherwise one probe (unless it raises before sending), the store ends as DeviceInfoStatus and the listeners see DeviceInfoTrace (the probe's records, any red commit, then the reachability update); the flag is down on every exit |
| LuxaforService.DeviceInfoOutcome | src/luxafor-service.ts:134-163 | `DeviceInfoStatus`: no probe if and only if nothing is published, and then the store is untouched; after a probe, online if and only if delivered; delivered on an empty history gives red/"Connection Test"; a failed probe keeps the colour |
| LuxaforService.DeviceInfoProbesOnce | src/luxafor-service.ts:138-140 | after a call that probed, the next call with the flag down answers from the store |
| LuxaforService.Service.ForceRefreshStatus | src/luxafor-service.ts:166-188 | always one probe (unless it raises before sending); the store ends as RefreshStatus and the listeners see RefreshTrace; the flag is down on every exit |
| LuxaforService.RefreshOutcome | src/luxafor-service.ts:166-188 | `RefreshStatus`: the colour guard never fires; online if and only if the probe was delivered; delivered gives red/"Set red"; failed keeps the colour |

## Left out

- The HTTP transport: the axios POST, its headers and its timeout are not modelled. A request is recorded in the ghost log `sent` and its outcome is a parameter. The URL is plain string concatenation.
- `new Date()`: every clock reading is a `nat` parameter. The store writes that follow a response all use the reply's `at`, as if that synchronous continuation read the clock once.
- Asynchronous interleaving: each intent is one sequential step. The read-then-set of `isRefreshing` across the await is not atomic in the source, and no mutual exclusion is claimed. `GetDeviceInfo` accepts any value of the flag on entry, which covers a call that overlaps a refresh in flight.
- The catch branches of `getDeviceInfo` and `forceRefreshStatus` cannot be reached, because `makeRequest` catches everything. They are modelled by `ProbeOutcome.Raised`: the awaited probe rejects before it touches the store or sends anything.
- Listeners are identified by number. Whether a listener throws on a given snapshot is the store's `throws` function. A listener that calls back into the store, or subscribes or unsubscribes during notification, is not modelled. `console.error` is the ghost `reported` log.
- The `getInstance` singleton: one store object is passed to the service explicitly.
- `getCurrentStatus`, `getLastAction` and `getCurrentColor` (src/luxafor-service.ts:65-77): one-line reads of the store snapshot, covered by `GetStatus`.
- LuxaforService.ColorUpdate: requires the fields its endpoint reads to be present (`CarriesFields`). The source's `Record<string, string>` typing assumes they are, and every intent supplies them. A missing field would yield `undefined` in JavaScript.
- The missing-user-ID check lives in the UI (src/control-luxafor.tsx and src/luxafor-status.tsx), which is not part of this model. So are rendering, toasts, confirmation alerts, the 30-second refresh timer and the label helpers.
- `lastSeen: Date | null` is `Option<nat>`.
- LuxaforService.NormalizeHex: characters are Unicode scalar values, while JavaScript's `replace`, `substring` and `padEnd` count UTF-16 code units. The two agree on every string of Basic Multilingual Plane characters, which includes every hex colour; an input with characters outside that plane is cut at a different place.
