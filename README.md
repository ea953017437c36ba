# Sample-Vote-System access gate, in Dafny

This project models the access gate of Sample-Vote-System's `main.js`. The gate runs when the
page has loaded. It decides whether a visitor may go on to the voting page, and it gives each
browser a persistent device token.

- **Private-mode probes.** The IndexedDB probe reports `true` (private) when `indexedDB.open`
  throws or its error event fires, and `false` when the success event fires. The file system
  probe reports `null` when neither `RequestFileSystem` nor `webkitRequestFileSystem` exists.
  Otherwise it reports `false` on the success callback and `true` on the failure callback.
- **Combination.** The two verdicts are combined with JavaScript's value-returning `||`. The
  result is then tested for truthiness. `false || null` is `null`, which is falsy, so a missing
  file system API never blocks on its own.
- **`createDeviceToken`.** It reads `"device_token"` from `localStorage`. If the value is falsy
  (absent, or the empty string), it stores the freshly generated UUID and returns it. Otherwise
  it returns the stored value unchanged, whatever its format, and does not write.
- **The `DOMContentLoaded` handler.** If the combined verdict is truthy, the gate shows an alert,
  replaces the body with a warning and stops. Otherwise it provisions the token and attaches a
  click listener to `#startVoteButton` that sets `location.href` to `"vote.html"`.

Layout, one module per concern:

- `js.dfy` (`Js`): the JavaScript values that reach a truthiness test (`null`, booleans,
  strings), truthiness, and `||`.
- `probes.dfy` (`Probes`): each probe's outcome-to-verdict mapping, the `||` combination and
  its truth table.
- `device_token.dfy` (`DeviceToken`): `Provision`, the specification of `createDeviceToken` as a
  function of the storage map and the generated UUID.
- `access_gate.dfy` (`AccessGate`): the class `Page`, which stands for the browser window.
  - Its fields are `localStorage` (a map), the body, the alerts shown, the start button's click
    listeners, `location.href`, and a count of `setItem` calls. The count makes "performs no
    write" observable.
  - Its methods are `CreateDeviceToken`, `OnDOMContentLoaded` and `ClickStartVote`, and each is
    proved against the functions above.
  - `Run` folds the gate over successive page loads in one storage origin, because
    `localStorage` persists between loads. Lemmas about `Run` give the token's lifecycle: it is
    created at the first load the gate allows, kept on every later load, and written at most
    once.
- `wrappers.dfy` (`Wrappers`): `Option`.

Browser facilities become inputs:

- the outcome of the IndexedDB open;
- which file system globals exist and which callback the request invokes;
- the UUID that `crypto.randomUUID()` returns.

Two details of `main.js` shape the model:

- The handler awaits the IndexedDB probe and only then starts the file system probe
  (main.js:83-84). The model takes both results as given, so the order does not matter.
- The test `!token` (main.js:65) is true for a missing key and also for a stored empty string,
  so an empty string is replaced by a fresh UUID (`DeviceToken.EmptyTokenIsReplaced`).

## Model

| member | source | states |
|---|---|---|
| `Js.Or` | main.js:87 | JavaScript's logical or is one of its operands, the right one whenever the left is falsy, and it is truthy iff either operand is |
| `Probes.IdbVerdict` | main.js:11-25 | the IndexedDB verdict is `true` on a synchronous throw or the error event, and `false` exactly on the success event |
| `Probes.ChosenFsApi` | main.js:37 | the unprefixed `RequestFileSystem` is chosen whenever it exists, and no API at all exactly when neither global exists |
| `Probes.FsVerdict` | main.js:37-52 | the file system verdict is `null` iff neither API exists; otherwise it is `true` iff the failure callback runs and `false` iff the success callback runs |
| `Probes.CombinedTruthTable` | main.js:83-89 | the combined verdict is truthy iff the IndexedDB probe did not succeed or a file system API exists and reported failure |
| `Probes.NullFsVerdictDoesNotBlock` | main.js:87-89 | with IndexedDB succeeding and no file system API, the combined value is `null` itself and is falsy |
| `Probes.Combined` | main.js:87 | the combined verdict is truthy iff the IndexedDB verdict is `true` or the file system verdict is truthy; it is `true` when the IndexedDB verdict is, and otherwise the file system verdict itself (`null` included) |
| `DeviceToken.GetItem` | main.js:62 | reading a key yields the stored string when the key is present and `null` when it is absent |
| `DeviceToken.Provision` | main.js:60-76 | afterwards the key holds exactly the returned token; no other key changes; a write happens iff the stored value was falsy; a truthy value is returned as stored with storage untouched; otherwise the fresh UUID is returned |
| `DeviceToken.UuidIsTruthy` | main.js:65-68 | a string in UUID layout is truthy, so a generated token counts as present on the next read |
| `DeviceToken.ProvisionIdempotent` | main.js:62-75 | a second call right after the first returns the same token, writes nothing and leaves storage as the first call left it |
| `DeviceToken.ProvisionEstablishesToken` | main.js:65-69 | after provisioning with a non-empty UUID, storage holds a truthy token |
| `DeviceToken.EmptyTokenIsReplaced` | main.js:62-69 | a stored empty string is treated as absent: the fresh UUID is written and returned |
| `DeviceToken.CorruptTokenIsKept` | main.js:62-75 | a stored non-UUID token such as "abc-123" is returned unchanged and nothing is written |
| `DeviceToken.FreshTokenIsUuid` | main.js:66-69 | when no token was stored, the returned token is in UUID layout whenever the generator's output is |
| `AccessGate.GateOutcome` | main.js:83-89 | the gate blocks iff the IndexedDB probe did not succeed or a file system API exists and reported failure |
| `AccessGate.LoadEffect` | main.js:89-99 | one handler run changes storage only when the gate allows the load: a blocked load leaves it untouched with no write; an allowed load writes once iff no truthy token was stored, then holds the fresh UUID, and otherwise leaves storage as it was; no other key changes |
| `AccessGate.Run` | main.js:81-108 | over any sequence of page loads no key other than "device_token" changes, and a stored token is never lost |
| `AccessGate.ExistingTokenIsKept` | main.js:62-75 | once a token is stored, no later page load writes to storage or changes it |
| `AccessGate.FirstAllowedLoadCreatesToken` | main.js:81-108 | without a token, storage changes only at the first allowed load: it stores that load's UUID with one write; if every load is blocked nothing is written |
| `AccessGate.AtMostOneWrite` | main.js:60-76 | across any number of page loads in one origin the device token is written at most once |
| `AccessGate.Page.SetItem` | main.js:69 | the key is bound to the value, and the write is counted |
| `AccessGate.Page.CreateDeviceToken` | main.js:60-76 | the returned token and the new storage are those of `Provision`; a write is counted only when the stored value was falsy; the token equals the stored value afterwards |
| `AccessGate.Page.OnDOMContentLoaded` | main.js:81-108 | the outcome is `GateOutcome`. Blocked: one alert, warning body, no storage change, no write, no new listener. Allowed: token provisioned, one listener to "vote.html" added, body and alerts untouched. Location never changes here |
| `AccessGate.Page.ClickStartVote` | main.js:104-107 | a click with a listener attached navigates to "vote.html"; with no listener the location stays |

## Left out

- Browser APIs are not modelled, only the results they hand back. This covers `indexedDB.open`,
  `RequestFileSystem`, `crypto.randomUUID`, `alert`, `innerHTML`, `getElementById`,
  `addEventListener` and `location`.
  - The probe outcomes and the generated UUID are parameters.
  - `localStorage` is a map field of `Page`.
  - The alert and the page body are recorded as fixed values.
- Promises, callbacks and event-loop timing are left out. The handler awaits the probes one
  after the other, and the model just takes both results as given.
- A probe that never settles (the gate then hangs) is left out. It is non-termination of a
  foreign call.
- Randomness and uniqueness of UUIDs are left out. Lemmas that depend on the generator ask
  only that its output is non-empty. `DeviceToken.UuidIsTruthy` shows that every string in
  UUID layout meets that demand.
- Closing the IndexedDB handle after a successful open is left out. No state in the model
  outlives the probe.
- The probe's `window.TEMPORARY` storage type and its 100-byte quota are left out. Only which
  callback runs affects the verdict.
- `console.log` output, the literal Japanese alert text and the warning's HTML and CSS are left
  out. They are presentation only.
- The handler's abort paths are left out. In the browser, any call below can throw. The async
  handler then rejects and stops where it is. The model's handler always reaches one of its two
  outcomes, and on `Allowed` it always attaches the listener. The calls are:
  - the file system request at main.js:43-52, which has no try/catch, so a synchronous throw
    rejects the probe and the `await` at main.js:84 rethrows it, with no alert and no body change;
  - `crypto.randomUUID` at main.js:68, which does not exist outside secure contexts, so the
    handler stops before anything is stored or attached, on every load;
  - `localStorage.getItem` and `setItem` at main.js:62 and 69;
  - `getElementById("startVoteButton")` at main.js:104, which yields `null` when the element is
    missing, so the handler stops after the token has been stored and no listener is attached.
