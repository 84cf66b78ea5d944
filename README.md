# Live sensor telemetry: subscription and history model

This project models, in Dafny, the part of the sensor-telemetry dashboard that has state and
rules: the browser's live-stream controller (connect, open/close/error/message events,
disconnect, reconnect, sensor switching), the bounded history window behind its charts, the
sample normaliser, the demo dashboard's selection policy, the WebSocket server's per-client
subscription table and broadcast filter, and the display classifiers for air quality and
reliability.

Modules, one per file:

- `Telemetry` (telemetry.dfy): the reading and the normalised sample, with the derived
  `time`/`formattedTime` fields. The hour is printed unpadded and the minute padded to two digits.
  An invalid date prints as "Invalid Date" and "NaN:NaN".
- `History` (history.dfy): the keep-the-newest-10 append that both dashboards use, and the
  per-sensor filter that the demo dashboard uses.
- `LiveDashboard` (dashboard.dfy): class `Dashboard`, with one method per callback and per
  socket event. Every socket ever created is kept with its ready state and with the selection
  its `onopen` closure captured, so a replaced socket can still fire events. Sent control
  messages accumulate in `outbox`. The mount effect's re-run after a selection change is
  `EffectRerun`. Client methods replay runs of events: `EndToEnd`, `SwitchThenEffect` and
  `ReconnectWhileOpen`.
- `DemoDashboard` (mock_dashboard.dfy): class `MockDashboard`, the generator-fed variant.
- `SubscriptionServer` (ws.dfy): the value-level transition `Apply` and the delivery predicate
  `ClientState.Receives`; classes `Client` and `Server`, which update them in place; and
  `BroadcastUpdate`, a loop over the registered clients.
- `Indicators` (indicators.dfy) and `ReliabilityText` (reliability_message.dfy): the pure
  classifiers.
- `Protocol` (protocol.dfy): the dashboard's messages as the server decodes and applies them,
  and the two runs behind the finding below.

Behaviour reproduced on purpose:

- `connected` and `connecting` are two independent flags. After a reconnect of an open socket
  both are true. A late close event from the replaced socket then clears both, even though the
  new socket is still connecting (`ReconnectWhileOpen`).
- Only a payload that makes the `try` block throw is dropped. That means text `JSON.parse`
  rejects, or the literal `null`. A reading with an unparseable timestamp is still appended.
- The effect in Dashboard.tsx lines 157-163 depends on `connectWebSocket` and
  `disconnectWebSocket`, which are re-created whenever the selection changes. So every switch
  made while a socket is open is followed by a second unsubscribe for the old selection, a
  `close()`, and a new socket that subscribes to the new selection on open (`SwitchThenEffect`).
- The live view empties its window on a sensor switch. The demo view filters its window when
  narrowing to one sensor and keeps it when switching to "all".

Inputs from outside the code are parameters:

- the outcome of `new Date(created_at)` (a `Clock`);
- the sample the demo generator produces;
- which clients' writes fail during a broadcast;
- the value formatter (`formatValue`).

## Model

| member | source | states |
|---|---|---|
| `Telemetry.DecimalString` | frontend/src/Dashboard.tsx:84-86 | the printed number is never empty; it has one digit below 10 and two below 100 |
| `Telemetry.DecimalRoundTrip` | frontend/src/Dashboard.tsx:84-86 | the printed number is a string of decimal digits whose value is the number itself |
| `Telemetry.MinuteField` | frontend/src/Dashboard.tsx:84-86 | a minute 0-59 padded to two places is exactly two digits whose value is the minute |
| `Telemetry.PadStart` | frontend/src/Dashboard.tsx:84-86 | the result has length max(length, width), ends with the input and is fill before it |
| `Telemetry.InvalidDateDisplay` | frontend/src/Dashboard.tsx:84-86 | an invalid date displays as "NaN:NaN" |
| `Telemetry.FormattedTimeShape` | frontend/src/MockDashboard.tsx:48 | for hours 0-23 and minutes 0-59 the display time has length 4 or 5 (5 exactly when the hour has two digits), a colon third from the end, the hour before it and the minute as exactly two digits after it |
| `Telemetry.Normalize` | frontend/src/Dashboard.tsx:80-87 | every raw field is passed through unchanged; `time` and `formattedTime` come from the clock |
| `History.AppendCapped` | frontend/src/Dashboard.tsx:90-95 | the window grows by one up to 10 entries and then stays at 10; the new sample is last and the entries kept are the newest of the old window; below capacity nothing is evicted |
| `History.AppendCappedIsLastN` | frontend/src/Dashboard.tsx:90-95 | one arrival leaves the newest 10 of the old window followed by the new sample |
| `History.AppendAllKeepsNewest` | frontend/src/MockDashboard.tsx:52-55 | after any run of arrivals the window is exactly the newest 10 of everything seen, newest last (oldest-first eviction) |
| `History.FromEmpty` | frontend/src/Dashboard.tsx:90-95 | from an empty window, any run of arrivals leaves the newest 10 of them (all of them while fewer) |
| `History.ElevenArrivals` | frontend/src/Dashboard.tsx:91-94 | eleven arrivals s0..s10 into an empty window leave s1..s10 |
| `History.FilterBySensor` | frontend/src/MockDashboard.tsx:63 | the result is no longer than the input, holds only the chosen sensor's samples, and holds each of them as often as the input did |
| `History.FilterIsSubsequence` | frontend/src/MockDashboard.tsx:63 | the filtered window is an order-preserving subsequence of the old one |
| `History.FilterIdempotent` | frontend/src/MockDashboard.tsx:63 | filtering twice by the same sensor equals filtering once |
| `LiveDashboard.Topic` | frontend/src/Dashboard.tsx:131 | the sent id is empty exactly for "all" (or an empty id) and is the selection itself otherwise |
| `LiveDashboard.Dashboard.constructor` | frontend/src/Dashboard.tsx:40-45 | no socket, both flags false, "all" selected, no current sample, empty window, nothing sent |
| `LiveDashboard.Dashboard.ConnectWebSocket` | frontend/src/Dashboard.tsx:47-56 | when the current socket is open nothing changes; otherwise a new connecting socket replaces the handle, captures the selection and sets `connecting`, and nothing else changes |
| `LiveDashboard.Dashboard.SubscribeToSensor` | frontend/src/Dashboard.tsx:119-134 | one subscribe for the sensor ("all" as "") is sent if and only if the current socket is open |
| `LiveDashboard.Dashboard.OnOpen` | frontend/src/Dashboard.tsx:58-63 | the socket becomes open, `connected` true and `connecting` false, and the captured selection is subscribed when the current socket is open, which it is when the opened socket is the current one |
| `LiveDashboard.Dashboard.IsOpen` | frontend/src/Dashboard.tsx:48 | the handle is set and its socket's ready state is open |
| `LiveDashboard.Dashboard.OnOpenCurrentOnly` | frontend/src/Dashboard.tsx:58-63 | corrected open handler: same flags and socket state as `OnOpen`; the current socket's open subscribes its captured selection, and a replaced socket's open sends nothing |
| `LiveDashboard.Dashboard.OnClose` | frontend/src/Dashboard.tsx:65-69 | any socket's close, stale or current, marks it closed and clears both flags; nothing else changes |
| `LiveDashboard.Dashboard.OnError` | frontend/src/Dashboard.tsx:71-75 | any socket's error marks it closed and clears both flags; nothing else changes |
| `LiveDashboard.Dashboard.OnMessage` | frontend/src/Dashboard.tsx:77-99 | a throwing payload changes nothing and sends nothing; any other sets the current sample to the normalised reading, which is also the last window entry, and appends with the keep-10 rule |
| `LiveDashboard.Dashboard.DisconnectWebSocket` | frontend/src/Dashboard.tsx:102-112 | when open: exactly one unsubscribe for the captured selection, then the socket is closing; otherwise nothing; the flags are untouched |
| `LiveDashboard.Dashboard.HandleReconnect` | frontend/src/Dashboard.tsx:114-117 | always creates a new connecting socket capturing the current selection, after one unsubscribe if the old socket was open; `connected` keeps its value |
| `LiveDashboard.Dashboard.EffectRerun` | frontend/src/Dashboard.tsx:157-163 | after a selection change: when open, exactly one unsubscribe for the previous selection and the socket is closing; in every case a new connecting socket becomes current, capturing the selection in force |
| `LiveDashboard.Dashboard.ChangeSensor` | frontend/src/Dashboard.tsx:136-155 | the same sensor changes nothing; a new one sends unsubscribe(old) then subscribe(new) only when open, and always sets the selection and empties the window, keeping the current sample |
| `LiveDashboard.OpenedDashboard` | frontend/src/Dashboard.tsx:40-63 | a new dashboard that connects and sees its socket open is connected, not connecting, and has sent exactly one subscribe for "all" (as "") with an empty window |
| `LiveDashboard.EndToEnd` | frontend/src/Dashboard.tsx:47-152 | connect, open, one reading, switch to "sensor-2", counting the handlers' own sends only: subscribe "", unsubscribe "", subscribe "sensor-2"; the reading is current; window length 1 then 0 |
| `LiveDashboard.SwitchThenEffect` | frontend/src/Dashboard.tsx:136-163 | the same switch followed by the effect re-run, the old socket's close and the new socket's open: a second unsubscribe "" goes out, then subscribe "sensor-2" on the new socket; the old socket ends closed and the dashboard is connected on two sockets in all |
| `LiveDashboard.ReconnectWhileOpen` | frontend/src/Dashboard.tsx:53-75 | reconnecting an open socket makes both flags true; the old socket's late close clears both while the new socket is still connecting; the new socket's open subscribes again |
| `DemoDashboard.MockDashboard.constructor` | frontend/src/MockDashboard.tsx:38-40 | no current sample, empty window, "all" selected |
| `DemoDashboard.MockDashboard.GenerateNewData` | frontend/src/MockDashboard.tsx:42-56 | the normalised sample becomes current and is appended with the keep-10 rule, whatever sensor is selected |
| `DemoDashboard.MockDashboard.ChangeSensor` | frontend/src/MockDashboard.tsx:57-65 | the same sensor changes nothing; "all" keeps the window; a specific sensor filters the window to it; the current sample never changes |
| `DemoDashboard.NarrowingKeepsExactlyThatSensor` | frontend/src/MockDashboard.tsx:63 | narrowing keeps exactly the entries of that sensor, as an order-preserving subsequence no longer than before |
| `SubscriptionServer.Apply` | backend/ws/ws.go:95-113 | subscribe "" receives every sensor with the set unchanged; subscribe id adds exactly that id to what is received; unsubscribe "" returns to the initial state receiving nothing; unsubscribe id removes only that id, which an all-sensors client still receives; any other type changes nothing |
| `SubscriptionServer.ClientState.Receives` | backend/ws/ws.go:122 | a broadcast for a sensor reaches the client when the client subscribed to it or is in all-sensors mode |
| `SubscriptionServer.ApplyIdempotent` | backend/ws/ws.go:95-113 | repeating any control message changes nothing further |
| `SubscriptionServer.InitialReceivesNothing` | backend/ws/ws.go:66-70 | a newly registered client receives no broadcast |
| `SubscriptionServer.Client.constructor` | backend/ws/ws.go:66-70 | empty subscription set, all-sensors flag false |
| `SubscriptionServer.Client.Handle` | backend/ws/ws.go:95-113 | the client's state after a message is `Apply` of its state before |
| `SubscriptionServer.Server.constructor` | backend/ws/ws.go:44-46 | no registered clients |
| `SubscriptionServer.Server.Connect` | backend/ws/ws.go:66-74 | a fresh client in the initial state is added to the registered clients |
| `SubscriptionServer.Server.Disconnect` | backend/ws/ws.go:76-81 | the client is removed from the registered clients |
| `SubscriptionServer.Server.BroadcastUpdate` | backend/ws/ws.go:117-131 | writes go to exactly the registered clients with `subscribed[id] or allSensors`; of those, the ones whose write fails are removed and every other client stays |
| `Indicators.GetAQIStatus` | frontend/src/lib/utils.ts:30-37 | each band holds exactly its range: Good up to 50, Moderate 51-100, Unhealthy for Sensitive Groups 101-150, Unhealthy 151-200, Very Unhealthy 201-300, Hazardous above; total |
| `Indicators.AqiMonotone` | frontend/src/lib/utils.ts:31-36 | a higher AQI never gets a better band |
| `Indicators.AqiColoursFollowStatus` | frontend/src/lib/utils.ts:31-36 | the status alone determines both colours |
| `Indicators.ReliabilityIndicator` | frontend/src/lib/utils.ts:39-45 | Inconsistent iff 100r <= 39 (negative scores included), Moderate iff 39 < 100r <= 79, Good iff 79 < 100r <= 100, Cannot Be Determined iff r > 1 |
| `Indicators.ReliabilityMonotone` | frontend/src/lib/utils.ts:40-44 | a higher score never gets a lower band |
| `Indicators.SharedStatusSharedColours` | frontend/src/lib/utils.ts:31-43 | a status word both classifiers use carries the same colours in both |
| `ReliabilityText.OutOfRange` | frontend/src/components/reliability-message.tsx:4-6 | the scaled test `100r > 100 or 100r < 0` is the same as `r > 1 or r < 0` |
| `ReliabilityText.ReliabilityMessage` | frontend/src/components/reliability-message.tsx:3-10 | scores below 0 or above 1 give the calibration message; scores in [0, 1], ends included, give the formatted value |
| `ReliabilityText.StatCardAgreesWithMessage` | frontend/src/Dashboard.tsx:271-277 | the stat card's own range test followed by the message or the formatter shows the same text as the message function alone |
| `Protocol.Wire` | frontend/src/Dashboard.tsx:128-133 | a dashboard message reaches the server with type "subscribe" or "unsubscribe" and the same sensor id |
| `Protocol.SubscribedToReceives` | backend/ws/ws.go:96-103 | after the subscribe sent on open, a fresh server client receives exactly the selected sensor, or every sensor for "all" |
| `Protocol.SwitchRun` | frontend/src/Dashboard.tsx:136-155 | a run of `changeSensor` calls on an open dashboard sends exactly `SwitchMessages` and leaves the last choice selected (the handlers' own sends only) |
| `Protocol.SwitchesLeaveLastChoice` | frontend/src/Dashboard.tsx:136-152 | after any series of the handler's switch messages on one socket, the server's client is subscribed to the last choice and to nothing else; this covers the handler's own sends only, since in the component the effect re-run closes the socket after the first switch |
| `Protocol.StaleOpenSubscribesAll` | frontend/src/Dashboard.tsx:58-63 | as written: after a switch while connecting, the replaced socket's late open subscribes "" on the new socket, whose server client then receives sensors other than the selected one |
| `Protocol.StaleOpenIgnored` | frontend/src/Dashboard.tsx:58-63 | corrected: the same run sends one subscribe for "sensor-1", and the server client is subscribed to exactly the selection |

Helpers without their own row: `Telemetry.Repeat`, `Telemetry.DigitValue`,
`Telemetry.DecimalValue`, `Telemetry.TwoDigitValue`, `Telemetry.FormattedTime`, `Telemetry.ColonSplit`, `Telemetry.Raw`,
`Telemetry.LocaleTime`, `History.LastN`, `History.LastNOfLastN`, `History.FirstArrival`,
`History.CutThenRest`, `History.AppendAll`, `History.IsSubsequence`,
`SubscriptionServer.ApplyAll`, `Protocol.Wires`, `Protocol.SubscribedTo`,
`Protocol.ApplyAllConcat`, `Protocol.WiresConcat`, `Protocol.SwitchOnce`,
`Protocol.SwitchMessages`, `Protocol.SwitchSend`, `Protocol.SwitchStep`, `Protocol.SwitchNext`,
`Protocol.LastChoice`, `Protocol.LateSubscribeToAll`, `Protocol.SwitchWhileConnecting`,
`DemoDashboard.MockDashboard.Record`, and the
level functions in `Indicators`.

## Findings

| source | as written | input that shows it | evidently intended | confidence | as-written member | corrected member |
|---|---|---|---|---|---|---|
| frontend/src/Dashboard.tsx:62 | every socket's `onopen` subscribes the selection it captured, through `websocketRef.current`, even after that socket was replaced | connect with "all"; switch to "sensor-1" while connecting (the effect re-run opens a second socket); the second socket opens, then the first: `[Subscribe("sensor-1"), Subscribe("")]` goes to the second socket, whose server client then receives every sensor while "sensor-1" is selected | a replaced socket's open subscribes nothing, so the current socket's client receives exactly the selected sensor | medium, not executed | `Protocol.StaleOpenSubscribesAll` (with `LiveDashboard.Dashboard.OnOpen`) | `LiveDashboard.Dashboard.OnOpenCurrentOnly` (with `Protocol.StaleOpenIgnored`) |

`OnOpen` stays as the model of the handler as written. The other scenario methods open only
the current socket, and they use `OnOpenCurrentOnly`, which behaves the same there.

## Left out

- Date parsing, time zones and `toLocaleTimeString`: these are library and locale behaviour. A
  `Clock` gives the hour, the minute and the locale string, or says the date is invalid.
- JSON decoding: a payload is already classified as unparseable, `null`, or a reading with all
  backend fields. A JSON value whose fields are missing or of another type is not modelled,
  although the source would still append it.
- Floating-point arithmetic: scores are exact reals, so `100 * r` has no rounding. AQI is an
  integer, as in the backend's record type.
- `formatValue` (it uses `toFixed`) and `cn` (a class-name library): the formatter is a
  function parameter of `ReliabilityMessage`.
- React's scheduling of state updates, renders and effects: an event's handler sees the state of
  the render that created it, and the model runs handlers in the order the caller gives. Each
  callback takes the selection its closure captured as a parameter where the closure fixes it.
  The effect at Dashboard.tsx lines 157-163 re-runs after every selection change, not only on
  mount and unmount. That re-run is `EffectRerun`, but `ChangeSensor` does not trigger it: the
  caller sequences it, as `SwitchThenEffect` does. `EndToEnd`, `SwitchRun` and
  `SwitchesLeaveLastChoice` therefore describe the switch handler's own sends only. In the
  component, a switch on an open socket is followed by a second unsubscribe and a close, so a
  series of switches on one open socket does not happen past the first switch. The demo
  dashboard's interval timer is not modelled; each tick is a call of `GenerateNewData`.
- `generateMockSensorData` is not part of this model. Its sample is a parameter of
  `GenerateNewData`.
- Rendering, charts, stat cards, routing and the home page.
- In ws.go: `StartServer`, the HTTP upgrade, `ReadJSON`, the mutex and the socket close calls.
  These are I/O and concurrency. A write failure is the `failing` parameter, and the order in
  which Go's map iteration visits clients is not modelled.
- backend/main.go (reliability statistics in Postgres, best-sensor query, TCP intake),
  backend/server.go (random data generator) and the backend integration tests.
- Browser event ordering is a precondition: an open event comes only from a connecting socket,
  and events name a socket that exists.
