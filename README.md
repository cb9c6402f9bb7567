# SenaSuraksha call signaling and soldier roster, modelled in Dafny

This project models three parts of the SenaSuraksha dashboard and proves properties of each model.

- **The signaling relay** (`backend/routers/call.py`). The relay keeps a registry `connected_users` from user id to websocket. One handler `websocket_endpoint` runs per socket. It accepts the socket with up to three attempts and binds the path `user_id` to it, so the last connection wins. It then relays every JSON text frame to the socket registered for its `to` field, stamping `from` with the path id. If `to` is unknown, it answers the sender with `{"error": "User <to> not connected"}`. On exit it deletes the binding of its id. Module `CallRouter` (call_router.dfy).
- **The browser call driver** (`trial/app.js`). Module-level `targetId`, `peerConnection` and `localStream` are changed by the socket.io handlers (`connect`, `offer`, `answer`, `ice-candidate`, `end-call`) and by `startCall`, `answerCall`, `createPeerConnection` and `endCall`. Emits go to a log `sent`, and WebRTC and media calls go to a log `rtc`. Module `CallClient` (call_client.dfy).
- **The soldier roster** (`WebPage.js`). This part covers the status icon, the health colour, the health-to-status rule, the bar, indicator and notification rules of a health update, the 0..100 clamp, and the in-place `push`, `splice` and field updates of the `soldiers` array. Module `SoldierRoster` (soldier_roster.dfy).

Module `Options` (options.dfy) holds the `Option` type. In `CallClient` it stands for JavaScript's `null`/`undefined`, for example an unset `targetId`. In `SoldierRoster` it stands for a cancelled prompt or a search without a hit. In `CallRouter` it is used only for "no accept attempt succeeded" (`FirstAccepted`). There Python's `None` is the JSON value `JNull` that `dict.get` returns for a missing key.

Each module has the same shape:

- Pure functions specify each operation on a value of the whole state (`RelayState`, `Client`, `seq<Soldier>`).
- Lemmas relate several steps: invariants kept over any run of events, and concrete scenarios.
- A class (`Server`, `Phone`, `Roster`) holds the same state in fields. Its methods update the fields in place, as the source does. Each method's postcondition ties the new fields to the specifying function of the old ones.

In the relay, the retry loop of `websocket_endpoint` and the event loop are `for` and `while` loops with invariants.

## How the model reads the code

- **Where an exception ends the relay loop.** `WebSocketDisconnect` is a subclass of `Exception`, so the inner `except Exception` at call.py:53 catches a disconnect before the outer handler at call.py:56 can. Every failure therefore ends the loop through `break` and then the `finally` clause. The model has one "stop" outcome for all of them:
  - text that is not JSON;
  - JSON that is not an object (`.get` raises);
  - a `to` that is a list or object (unhashable);
  - a `send_text` that raises.
- **What the error reply says.** A `to` that is null, a boolean or a number is never a key, so it gets the error reply. The reply renders it as Python's `str()` does: `None`, `True`, `42`.
- **The `finally` clause.** It deletes `connected_users[user_id]` whatever socket that entry now names. So when an id reconnects and the old socket then closes, the newer socket's binding is removed too. The newer handler keeps running but cannot be reached. `StaleExitDropsNewerBinding` and `ReconnectThenStaleClose` state this.
- **Failed accepts.** When all three attempts fail, the handler returns before its `try`/`finally`. An earlier binding for the same id is then left in place.
- **Empty health answer in `adjustHealth`.** The answer passes `!isNaN(newHealth)`, because `Number("")` is 0, but `parseInt("")` is NaN. NaN is clamped to NaN and stored. The status rule makes the soldier `dead`, the notification says `OPERATIONAL`, and the indicator turns red. `EmptyAnswerMisreported` and `NoticeLabel` state this.
- **Indicator at health 0.** The indicator of a health update is red (WebPage.js:147-148), while `getStatusIcon` of the stored `dead` status is grey. `IndicatorClass` states this.
- **The sample roster breaks the status rule.** `ECHO-005` has health 72, which the rule calls operational, but it is stored as `caution`. `SampleBreaksStatusRule` states this.
- **What the code does not do.** It has no busy rejection, glare tie-break, call-setup timeout, candidate buffering, `already-in-call` guard or `reject/unreachable` envelope. The relay unregisters by user id, not by connection. `endCall` is not idempotent: every call emits `end-call` again (`EndCallTwiceEmitsTwice`).
- **Two wire formats.** The client speaks socket.io events (`join`, `offer`, `answer`, `ice-candidate`, `end-call`), while `call.py` expects `{to, data, call_type}`. Each is modelled against its own code.

## Model

| member | source | states |
|---|---|---|
| `CallRouter.Relay` | backend/routers/call.py:32-55 | One relay turn sends at most one frame, and the loop goes on exactly when one was sent. For a routable message with a registered `to` that frame is `{from: path id, data, call_type}` to that user's socket. For an unregistered `to` it is the `User <to> not connected` error to the sender. Bad JSON, a non-object, an unhashable `to` or a failing send stops the loop and sends nothing. |
| `CallRouter.RelayReadsOnlyRoutingFields` | backend/routers/call.py:37-47 | Any field besides `to`, `data` and `call_type` (a sender-chosen `from` included) has no effect on what is relayed. |
| `CallRouter.FirstAccepted` | backend/routers/call.py:18-28 | Finds the first attempt whose `accept()` returns, with all earlier attempts failed; none exactly when every attempt fails. |
| `CallRouter.Finish` | backend/routers/call.py:58-60 | On exit the handler's path id is unbound, every other binding is unchanged, and its loop is gone. |
| `CallRouter.Next` | backend/routers/call.py:16-60 | Each event keeps the registry invariant: every binding names a live handler's socket for that same id. Opening binds the id to the fresh socket, replacing an earlier binding; all-failed accepts change nothing. A relay turn never changes the registry. Every frame sent carries the sending handler's path id as `from` and goes to a live socket. The outbox only grows. |
| `CallRouter.ReplayKeepsInv` | backend/routers/call.py:14-60 | Any interleaving of opens, messages and closes keeps the registry invariant and only appends to what was sent. |
| `CallRouter.StaleExitDropsNewerBinding` | backend/routers/call.py:58-60 | When an old socket's handler exits after its id was rebound to a newer socket, the id is unbound although the newer handler is still running. |
| `CallRouter.ReconnectThenStaleClose` | backend/routers/call.py:19-61 | Concrete run: `soldier1` connects twice, the first socket closes, and `soldier1` is no longer reachable. |
| `CallRouter.Conversation` | backend/routers/call.py:30-55 | A handler's frames number at most its messages, go only to itself or to a registered socket, and every forward carries its own id as `from`. |
| `CallRouter.Server.constructor` | backend/routers/call.py:14 | The registry starts empty. |
| `CallRouter.Server.Open` | backend/routers/call.py:18-28 | The retry loop: success binds the path id to the new socket (last connection wins), and all three failures add nothing. |
| `CallRouter.Server.Unregister` | backend/routers/call.py:58-60 | Deletes the path id's binding in place. |
| `CallRouter.Server.Receive` | backend/routers/call.py:31-55 | One relay turn in place. The registry is unchanged unless the turn breaks the loop, which then unregisters. |
| `CallRouter.Server.Close` | backend/routers/call.py:53-60 | A disconnect breaks the loop and runs the `finally` clause. |
| `CallRouter.Server.Endpoint` | backend/routers/call.py:16-60 | A whole handler run on its own. Afterwards the path id is unbound and every other binding is as before; with all accepts failed nothing changes. The frames sent are exactly the conversation of its messages. |
| `CallRouter.Server.Run` | backend/routers/call.py:14-60 | Any sequence of events, applied in place, gives the specified state and keeps the invariant. |
| `CallClient.CreatePeerStep` | trial/app.js:87-109 | `peerConnection` becomes a fresh peer at once. Only when the microphone opens do `localStream` and the `onicecandidate` handler appear. Nothing is emitted and `targetId` is kept. |
| `CallClient.StartCallStep` | trial/app.js:54-66 | `targetId` becomes `soldier1` before anything else. The one `offer` is emitted only when media and `createOffer` work, and it is addressed to that `targetId`. |
| `CallClient.AnswerCallStep` | trial/app.js:69-85 | The one `answer` is emitted only when media and negotiation work, and it is addressed to the current `targetId`. |
| `CallClient.EndCallStep` | trial/app.js:111-121 | Always clears `peerConnection`, closes the peer and stops its candidate events, and emits `end-call` to `targetId`. It keeps `targetId` and `localStream`. |
| `CallClient.LocalCandidateStep` | trial/app.js:97-104 | A local candidate is emitted exactly when the peer has the handler and is open, the candidate is non-null and `targetId` is truthy. It is addressed to `targetId`; otherwise nothing changes. |
| `CallClient.Step` | trial/app.js:24-52 | Each event emits at most one message, and every addressed emission goes to the new `targetId`. Only `startCall` (to `soldier1`) and an incoming offer (to its `from`) change `targetId`. Only `endCall` emits `end-call`, to any target; it always emits one to the old `targetId` and leaves no peer. A remote answer or candidate changes no call state. |
| `CallClient.StepAddressing` | trial/app.js:54-104 | One event keeps every logged candidate addressed to a truthy target and every logged offer addressed to `soldier1`. |
| `CallClient.ReplayAddressing` | trial/app.js:24-121 | Over any run of events, no ICE candidate is ever emitted without a truthy target, and every offer dials `soldier1`. |
| `CallClient.ConnectJoinsAsCommander` | trial/app.js:24-27 | On connect the client emits `join` with `commander` and nothing else changes. |
| `CallClient.EndCallTwiceEmitsTwice` | trial/app.js:111-116 | Two `endCall`s emit `end-call` twice to the same target, so it is not idempotent. |
| `CallClient.EndCallEchoesToCallee` | trial/app.js:50-52 | After dialling, a received `end-call` emits `end-call` back to `soldier1`. |
| `CallClient.Phone.constructor` | trial/app.js:9-13 | `targetId`, `peerConnection` and `localStream` start null. |
| `CallClient.Phone.CreatePeerConnection` | trial/app.js:87-109 | In-place `createPeerConnection`, equal to its specifying step. |
| `CallClient.Phone.StartCall` | trial/app.js:54-66 | In-place `startCall`, equal to its specifying step. |
| `CallClient.Phone.AnswerCall` | trial/app.js:69-85 | In-place `answerCall`, equal to its specifying step. |
| `CallClient.Phone.EndCall` | trial/app.js:111-121 | In-place `endCall`, equal to its specifying step. |
| `CallClient.Phone.OnConnect` | trial/app.js:24-27 | The `connect` handler. |
| `CallClient.Phone.OnOffer` | trial/app.js:29-32 | The `offer` handler sets `targetId` to the offer's `from` before answering. |
| `CallClient.Phone.OnAnswer` | trial/app.js:34-40 | The `answer` handler hands the answer to the peer; with no peer it does nothing. |
| `CallClient.Phone.OnIceCandidate` | trial/app.js:42-48 | The `ice-candidate` handler. A failure is caught, and no call state changes. |
| `CallClient.Phone.OnLocalCandidate` | trial/app.js:97-104 | The `onicecandidate` gate. |
| `CallClient.Phone.Dispatch` | trial/app.js:15-52 | Routes each event to its handler. |
| `CallClient.Phone.Run` | trial/app.js:15-121 | Any sequence of events, applied in place, gives the specified state. |
| `SoldierRoster.StatusFor` | WebPage.js:158-166 | The whole table, each band if and only if: operational from 70, caution from 40 below 70, critical above 0 below 40, and dead otherwise (NaN included). |
| `SoldierRoster.StatusMonotone` | WebPage.js:245-253 | More health never gives a worse status. |
| `SoldierRoster.StatusIcon` | WebPage.js:67-75 | operational gives green, caution yellow and critical red. Any other status string, `dead` included, gives grey and only those do. |
| `SoldierRoster.HealthColor` | WebPage.js:77-82 | Each colour if and only if its band: green from 80, gold from 50 below 80, red above 0 below 50, and grey otherwise (NaN included). Grey is exactly the soldiers the status rule calls dead, green is always operational, and critical is always red. |
| `SoldierRoster.Clamp` | WebPage.js:117 | A number lands in 0..100 and is unchanged inside it; below 0 gives 0, above 100 gives 100, and NaN stays NaN. |
| `SoldierRoster.AdjustedHealth` | WebPage.js:110-120 | Only an answer that passes `isNaN` reaches the update, and then with the clamped parse `Clamp(parsed)`: in 0..100 unless `parseInt` gave NaN. |
| `SoldierRoster.FillClass` | WebPage.js:132-139 | high, medium or low exactly for an operational, caution, or critical/dead status. |
| `SoldierRoster.IndicatorClass` | WebPage.js:141-149 | For health above 0 the indicator is the status icon of the new status. At 0 (or NaN) it is red while the icon of `dead` is grey. |
| `SoldierRoster.NoticeLabel` | WebPage.js:190-202 | For every health in 0..100 the notification word is the upper-cased status the rule stores. For NaN it is OPERATIONAL while the status is dead. |
| `SoldierRoster.NoticeColour` | WebPage.js:190-204 | One background per word, each if and only if: green with OPERATIONAL, orange `#FF9800` with CAUTION, red `#F44336` with CRITICAL, and grey with DEAD. |
| `SoldierRoster.EmptyAnswerMisreported` | WebPage.js:116-117 | An empty health answer stores NaN, marks the soldier dead and announces OPERATIONAL. |
| `SoldierRoster.Upper` | WebPage.js:257 | `toUpperCase` keeps the length and maps each character. |
| `SoldierRoster.Lower` | WebPage.js:283-284 | `toLowerCase` keeps the length and maps each character. |
| `SoldierRoster.BeforeDash` | WebPage.js:152 | `split('-')[0]` is a prefix without a dash, followed by a dash when shorter than the id. |
| `SoldierRoster.SampleBreaksStatusRule` | WebPage.js:5-14 | The initial roster does not follow the status rule, because ECHO-005 at 72 is stored as caution. |
| `SoldierRoster.FindIndex` | WebPage.js:282-285 | The first matching soldier, with no match before it; none exactly when no soldier matches. |
| `SoldierRoster.Recruit` | WebPage.js:239-262 | The added record has the upper-cased id and is marked "Just added". An unparsable health becomes 100. The health is clamped into 0..100: unchanged inside it, 0 below it and 100 above it. The status follows the same rule as updates. |
| `SoldierRoster.RemoveAt` | WebPage.js:294 | Exactly one entry is gone: length minus one, order kept, multiset minus that entry. It keeps a consistent roster consistent. |
| `SoldierRoster.Retouched` | WebPage.js:153-166 | A health update sets health, "Just now" and the rule's status, and keeps id and name. |
| `SoldierRoster.Updated` | WebPage.js:151-167 | Only the first soldier whose id contains the upper-cased id prefix changes; with no match nothing changes. It keeps a consistent roster consistent. |
| `SoldierRoster.AppendKeepsConsistent` | WebPage.js:264-265 | Appending a new recruit keeps a consistent roster consistent. |
| `SoldierRoster.Roster.constructor` | WebPage.js:5-14 | The roster starts as the sample data. |
| `SoldierRoster.Roster.AddSoldierInfo` | WebPage.js:231-272 | With a non-empty name and id, exactly one record is appended at the end and earlier entries are unchanged; otherwise nothing changes. |
| `SoldierRoster.Roster.DeleteSoldierInfo` | WebPage.js:274-297 | With a non-empty query, a match and confirmation, exactly the first match is spliced out; otherwise nothing changes. |
| `SoldierRoster.Roster.UpdateSoldierHealth` | WebPage.js:122-171 | The roster becomes `Updated`, and the bar, indicator and notification shown are those of the new health. |
| `SoldierRoster.Roster.AdjustHealth` | WebPage.js:110-120 | A cancelled or non-numeric answer changes nothing; otherwise the clamped value is applied. |

## Left out

- backend/routers/ai_analysis.py, backend/main.py and homeScript.js are not part of this model. They are speech, AI and HTTP calls, FastAPI wiring, and a map with fixed floating-point coordinates.
- Concurrency in call.py: handlers interleave only between whole events (open, one received frame, close). The awaits inside one turn are not interleaved.
- Logging in call.py and app.js (`logger.*`, `console.*`) has no effect on state and is dropped.
- `json.dumps` serialisation: replies are modelled as the dictionaries that are dumped. JSON numbers are integers; floats are not modelled.
- A socket handle is fresh for every new websocket. The server's own socket identity and transport are not modelled.
- app.js handlers run one at a time to completion. An event arriving during an `await` of `startCall` or `answerCall` is not modelled.
- app.js failures: `MicDenied` is `getUserMedia` rejecting. `NegotiationFails` is `createOffer` rejecting in `startCall`, or `setRemoteDescription` rejecting in `answerCall`. Later rejections (`setLocalDescription`, `createAnswer`) are not modelled separately. A rejection in the `answer` handler is dropped, as the source drops it.
- app.js `from` values: an offer's `from` is a string or absent, and `null` and `undefined` are one value. Non-string `from` values are not modelled.
- DOM writes are not modelled: status text, button visibility, modals, `innerHTML` cards, `alert`, notification styling and `setTimeout` removal. The health-update view keeps only the fill class, indicator class, notification word and background.
- Case mapping: `toUpperCase` and `toLowerCase` map ASCII letters only.
- SoldierRoster.StatusIcon: a status string naming an inherited `Object.prototype` property (such as `toString`) is not modelled. The roster only stores the four status strings.
- The text parsing of `parseInt` and `isNaN` is not modelled: their results are the inputs `JsNum` and `HealthReply`.
- `adjustHealth` reads the current health from the bar only for the prompt text, so it is dropped.
- Soldier records are values replaced in the sequence, not shared objects. Nothing else in the page keeps a reference to them.
