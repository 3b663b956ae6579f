# License client session, modelled in Dafny

This project models the session logic of a desktop license client. The
client activates a license key against a license server. It then keeps the
activation alive with a heartbeat request every ten seconds. It also listens
on a web socket for a `LOCK` message that revokes the license. The model
covers two Java classes:

- `Controller` (`controller_helpers.dfy`, `session.dfy`):
  - the device id, the MAC address as upper-case hex;
  - the error text taken from a failed response;
  - the session fields `license`, `isRunning`, the heartbeat thread and
    `wsClient`, as changed by `activate`, `deactivate`, `stopHeartbeat` and
    one iteration of the heartbeat loop.
- `LicenseWebSocketClient` (`socket_rules.dfy`, `session.dfy`):
  - the endpoint string;
  - what `onMessage` does with a message;
  - the reconnect rule of `onClose`;
  - the order of effects in `handleLicenseLock`.

`wire.dfy` holds the values that cross into libraries: signed Java bytes,
Gson's JSON tree, the outcome of an HTTP call and the request sent.

Inputs stand in for everything outside the program:
- the MAC lookup (`None` when the host has no interface or hardware address);
- the server's reply, a response with status and body, or a connection error;
- Gson's parser (`parse`);
- whether `java.net.URI` accepts the endpoint string (`acceptsUri`).

The `Controller` methods that call the server return the request they
sent, built from the key and the device id, or `None` when `getDeviceId`
fails. The web socket client keeps an ordered list of its observable
effects: heartbeat stopped, lock alert, reconnect request.

Behaviour of the code worth noting:
- A failed deactivation changes nothing; teardown is not unconditional.
- There is no `Locked` or terminal state. A second LOCK stops the heartbeat
  again (a no-op on the heartbeat state) and raises a second alert
  (`Session.LockTwice`).
- Reconnection is a single `reconnect()` call inside `onClose` on each close
  that qualifies. There is no separate retry supervisor.
- `activate` starts a heartbeat thread only when none is alive. Only in that
  case does it set `isRunning`. It replaces `wsClient` without closing the
  old client. After a deactivation, an activation that comes before the old
  heartbeat thread takes its next step leaves no heartbeat running
  (`Session.ReactivateBeforeThreadExits`).

Gson's `getAsString` is modelled as the library defines it:
- a primitive gives its text;
- an array of exactly one element gives that element's string;
- anything else throws.

So a `LOCK` whose `reason` is an object is dropped, not handled. Java's
`%02X` prints a negative byte as its value plus 256. The model keeps bytes
signed and makes that conversion explicit (`Wire.Unsigned`).

## Model

| member | source | states |
|---|---|---|
| `Wire.Unsigned` | src/main/java/com/hsf/Controller.java:42 | a Java byte is read as a value in 0..255 congruent to it modulo 256, as `%02X` reads a negative `Byte` |
| `Wire.AsString` | src/main/java/com/hsf/Controller.java:197 | Gson's `getAsString`: a primitive gives its text; only a primitive or a one-element array gives a string, anything else throws |
| `Wire.StringField` | src/main/java/com/hsf/LicenseWebSocketClient.java:55-60 | the `has` / `get(...).getAsString()` pattern: absent exactly when the member is missing, a string exactly when the member reads as one |
| `Wire.SignedUnsigned` | src/main/java/com/hsf/Controller.java:42 | the unsigned reading loses nothing: converting back gives the same byte |
| `ControllerHelpers.DigitValue` | src/main/java/com/hsf/Controller.java:42 | every upper-case hex digit is the printed digit of exactly one value below 16 |
| `ControllerHelpers.ByteHex` | src/main/java/com/hsf/Controller.java:42 | `%02X` of one byte: two upper-case hex digits whose value is the byte's unsigned reading |
| `ControllerHelpers.HexEncode` | src/main/java/com/hsf/Controller.java:41-43 | the device id the loop builds: the digits of every byte in order, two characters per byte |
| `ControllerHelpers.HexEncodeShape` | src/main/java/com/hsf/Controller.java:40-43 | the device id has exactly two characters per MAC byte, each in `0-9A-F` |
| `ControllerHelpers.HexEncodePair` | src/main/java/com/hsf/Controller.java:42 | characters 2i and 2i+1 of the device id are the two digits of byte i, in order, with no separator |
| `ControllerHelpers.HexEncodeAppend` | src/main/java/com/hsf/Controller.java:42 | appending a byte to the address appends its two digits to the id (the loop's step) |
| `ControllerHelpers.HexRoundTrip` | src/main/java/com/hsf/Controller.java:41-43 | reading the device id back pair by pair gives the original byte sequence |
| `ControllerHelpers.HexEncodeInjective` | src/main/java/com/hsf/Controller.java:41-43 | two hardware addresses with the same device id are equal |
| `ControllerHelpers.GetDeviceId` | src/main/java/com/hsf/Controller.java:37-44 | the string-builder loop yields the hex encoding of the whole address, of length twice the address |
| `ControllerHelpers.ErrorMessage` | src/main/java/com/hsf/Controller.java:192-203 | `getErrorMessageFromResponse`: the readable `message` member when there is one; the result differs from the body only when it is that member |
| `ControllerHelpers.ErrorMessageCases` | src/main/java/com/hsf/Controller.java:192-203 | the error text is the readable `message` member of a JSON object body; in every other case (no member, unreadable member, not an object) it is the body unchanged |
| `ControllerHelpers.ErrorMessageOfErrorBody` | src/main/java/com/hsf/Controller.java:195-198 | for the server's `{"message": m}` body the reported text is `m` |
| `Session.ActivateRequest` | src/main/java/com/hsf/Controller.java:51-58 | the activation POST goes to the server's `/activate` with exactly the key, the device id and the product name "Product 2" |
| `Session.DeactivateRequest` | src/main/java/com/hsf/Controller.java:134-139 | the deactivation POST goes to `/deactivate` with exactly the key and the device id |
| `Session.HeartbeatRequest` | src/main/java/com/hsf/Controller.java:170-175 | the heartbeat POST goes to `/heartbeat` with exactly the key and the device id |
| `Session.Answer` | src/main/java/com/hsf/Controller.java:64-65 | a reply succeeds exactly on status 200; a connection error is its own outcome; any other status is a rejection carrying the extracted error text |
| `Session.Stopped` | src/main/java/com/hsf/Controller.java:205-209 | after a stop `isRunning` is false, the thread's liveness is kept, and it is interrupted exactly when it was alive |
| `Session.KeepsBeating` | src/main/java/com/hsf/Controller.java:73-82 | the loop continues exactly after a call that got a reply (200 or not); a missing device id or a connection error ends it |
| `Session.AfterTick` | src/main/java/com/hsf/Controller.java:73-82 | a loop step never changes `isRunning`; the thread stays alive exactly when it was and the step keeps beating, and otherwise it ends uninterrupted |
| `Session.Controller.constructor` | src/main/java/com/hsf/Controller.java:32-35 | a new controller has an empty license, no heartbeat, `isRunning` false and no web socket client |
| `Session.Controller.Activate` | src/main/java/com/hsf/Controller.java:46-129 | the key is stored before anything else; a missing device id or a reply other than 200 changes nothing else; on 200 a heartbeat starts only if no thread is alive, and a fresh client for the endpoint of the key and device id replaces `wsClient` when the URI is accepted |
| `Session.Controller.Deactivate` | src/main/java/com/hsf/Controller.java:131-166 | on 200: `isRunning` false, a live thread interrupted, the client closed and `wsClient` null; a missing device id, a connection error or another status changes nothing |
| `Session.Controller.StopHeartbeat` | src/main/java/com/hsf/Controller.java:205-211 | `isRunning` becomes false and a live thread is interrupted; license and client untouched |
| `Session.StoppedIdempotent` | src/main/java/com/hsf/Controller.java:205-211 | stopping the heartbeat twice leaves the same state as stopping it once |
| `Session.Controller.HeartbeatTick` | src/main/java/com/hsf/Controller.java:71-83 | one loop iteration: a false `isRunning` ends the thread without a request; otherwise, with a device id, a heartbeat request for the stored key is sent, and without one the call throws before any request; a reply keeps the thread alive, an exception ends it; `isRunning` never changes |
| `Session.RejectedHeartbeatContinues` | src/main/java/com/hsf/Controller.java:186-189 | a non-200 heartbeat is only reported: the loop goes on and the flags are unchanged |
| `Session.FailedHeartbeatEndsLoop` | src/main/java/com/hsf/Controller.java:72-82 | an exception from the heartbeat call ends the thread and leaves `isRunning` as it was |
| `Session.ReactivateBeforeThreadExits` | src/main/java/com/hsf/Controller.java:69-70 | deactivating, re-activating before the old thread's next step, then that step: no heartbeat is left running |
| `Session.LicenseWebSocketClient.constructor` | src/main/java/com/hsf/LicenseWebSocketClient.java:19-27 | the client is aimed at the endpoint of the key and device id and remembers its controller; connecting is left to `connectBlocking` |
| `Session.LicenseWebSocketClient.SetMainController` | src/main/java/com/hsf/LicenseWebSocketClient.java:29-32 | the main screen is set and nothing else changes |
| `Session.LicenseWebSocketClient.Close` | src/main/java/com/hsf/Controller.java:154-157 | the client is closed and nothing else changes |
| `Session.LicenseWebSocketClient.OnMessage` | src/main/java/com/hsf/LicenseWebSocketClient.java:43-73 | an ignored message changes nothing, in the client or the controller; a LOCK stops the controller's heartbeat and appends the lock's effects |
| `Session.LicenseWebSocketClient.HandleLicenseLock` | src/main/java/com/hsf/LicenseWebSocketClient.java:101-128 | the controller's heartbeat is stopped (when there is a controller) and then exactly one alert is issued, on the main screen if one is set, directly otherwise |
| `Session.LicenseWebSocketClient.OnClose` | src/main/java/com/hsf/LicenseWebSocketClient.java:75-92 | each close event adds at most one reconnect request, exactly when the code is not 1000 and the close was not remote |
| `Session.LockTwice` | src/main/java/com/hsf/LicenseWebSocketClient.java:59-62 | after two LOCK messages the heartbeat state equals that after one, and two alerts have been issued |
| `SocketRules.EndpointUri` | src/main/java/com/hsf/LicenseWebSocketClient.java:20 | the endpoint's length is the sum of its parts: nothing is escaped or dropped |
| `SocketRules.EndpointUriInjective` | src/main/java/com/hsf/LicenseWebSocketClient.java:20 | when the key holds no `&`, the endpoint determines the key and the device id |
| `SocketRules.EndpointUriAmbiguous` | src/main/java/com/hsf/LicenseWebSocketClient.java:20 | without escaping, a key holding `&deviceId=` gives two identities the same endpoint |
| `SocketRules.Classify` | src/main/java/com/hsf/LicenseWebSocketClient.java:51-72 | only an object whose `type` reads as `LOCK` can lock |
| `SocketRules.ClassifyLockIff` | src/main/java/com/hsf/LicenseWebSocketClient.java:55-62 | a message locks if and only if it is an object with `type` "LOCK" and a readable or absent `reason`; the reason is that member or "License has been revoked" |
| `SocketRules.ClassifyLockNotice` | src/main/java/com/hsf/LicenseWebSocketClient.java:59-62 | the server's `{"type":"LOCK","reason":r}` locks with reason `r` |
| `SocketRules.ClassifyLockWithoutReason` | src/main/java/com/hsf/LicenseWebSocketClient.java:60 | a LOCK without `reason` locks with the default reason |
| `SocketRules.ClassifyIgnores` | src/main/java/com/hsf/LicenseWebSocketClient.java:63-72 | a message that is not an object, has no `type`, or has another type is ignored |
| `SocketRules.ShouldReconnect` | src/main/java/com/hsf/LicenseWebSocketClient.java:83 | no reconnect for code 1000 or for a remote close, and a reconnect for every other close |
| `SocketRules.NormalOrRemoteCloseNeverReconnects` | src/main/java/com/hsf/LicenseWebSocketClient.java:83 | a close with code 1000 or started by the server never reconnects |
| `SocketRules.AbnormalLocalCloseReconnects` | src/main/java/com/hsf/LicenseWebSocketClient.java:83-87 | any other code on a locally seen close reconnects |
| `SocketRules.LockTrace` | src/main/java/com/hsf/LicenseWebSocketClient.java:106-127 | the lock's effects are the heartbeat stop (only with a controller) followed by one alert carrying the reason, on the main screen exactly when one is set |
| `SocketRules.LockTraceNotifiesOnce` | src/main/java/com/hsf/LicenseWebSocketClient.java:106-127 | a lock issues exactly one notification, and the heartbeat stop, when present, is first |

## Left out

- HTTP and web socket I/O (`HttpClient.send`, `connectBlocking`, `close`,
  `reconnect`) are foreign calls. Their outcomes are inputs or recorded
  effects. What the library does in `reconnect()` and `close()`, including
  the `onClose` event a local close later produces, is not part of this model.
- Gson parsing and serialising is a foreign library. Parse results are an
  input. Requests are shown as maps, not JSON text.
- `InetAddress`/`NetworkInterface` lookup: the MAC bytes are an input, and a
  failed lookup is `None`.
- Threads, `Thread.sleep`, the ten-second and two-second delays, the
  volatile flag and the background connection thread are concurrency and
  timing. The connection thread is run to completion at the end of
  `Activate`. An interrupt takes effect at the thread's next loop step.
- `Session.Controller.Activate`: exceptions from `send` other than
  `ConnectException`, and failures of screen navigation, are not modelled.
  The connection's own failure (`connectBlocking`) changes no modelled state.
- `Session.LicenseWebSocketClient.OnClose`: an interrupt of the two-second
  sleep, which skips the reconnect, is not modelled.
- `onOpen` and `onError` only log. Logging, alerts, `Platform.runLater`
  and `System.exit` are UI and process effects. Alerts are recorded as
  abstract effects; the exit that follows them is not.
- `MainController.java`, `LicenseClient.java` and `TestAlert.java` (JavaFX
  screens and bootstrapping) and `SimpleWebSocketTest.java` (a debug
  harness) are not part of this model.
