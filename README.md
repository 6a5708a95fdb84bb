# IoT dashboard for an ESP32: a Dafny model of its client core

The dashboard is a React component that keeps one WebSocket open to an ESP32
board. It shows the sensor readings the board sends, keeps a rolling history
of them for a chart, and sends actuator commands (stepper motor, servo,
lights) back to the board. This project models the component's logic and
proves properties of it:

- `config.dfy` (module `Config`): the configuration object. It holds the
  address, the port, the update interval and the history capacity
  `MAX_HISTORICAL`. `WEBSOCKET_URL` builds the URL. The module also has a
  parser that splits a `ws://host:port` URL, so that the URL can be shown to
  round-trip.
- `history.dfy` (module `History`): the decoded reading, the timestamped
  history entry, JavaScript's `Array.prototype.slice` with a negative start,
  and the updater handed to `setHistoricos`. `Replay` folds the updater over
  a stream of entries starting from the empty first-render history.
  `Collapse` cuts each run of equal neighbours to one entry.
- `actuators.dfy` (module `Actuators`): the actuator record and its
  one-field updaters (the `{ ...prev, field: v }` copies), plus the outbound
  frames `{tipo, valor}` and `{tipo: 'getDatos'}`.
- `dashboard.dfy` (module `Dashboard`): class `Dashboard` holds the component
  state `sensores`, `actuadores`, `historicos`, `conectado` and `ws`, plus a
  log `transport` of every send and close issued on a socket. Its methods are
  the event handlers. `WebSocket` is an object with identity and a URL.
  `Valid()` ties the history to the ghost stream `ingested` of decoded
  entries: `historicos == Replay(ingested)`. It also ties `ws` to the ghost
  list `created` of constructed sockets. Two clients show what callers can
  prove from these contracts alone. `ScenarioIngest` connects, opens and
  receives one message, which becomes the sensor state and the only history
  entry. `ScenarioCommands` drops a command sent before connecting, forwards
  an out-of-range stepper value unchanged, and after the close event a poll
  tick sends nothing.
- `wrappers.dfy`: `Option`.

Points where the code behaves differently from what its names and comments
suggest:

- **History bound.** The history keeps `MAX_HISTORICAL + 1` = 21 entries, not
  20: `slice(-20)` runs before the new entry is appended
  (`History.ReplayOfDistinct`).
- **Duplicate test.** The test compares whole entries, timestamp included. The
  same reading under a new timestamp is appended
  (`History.NewTimestampIsAppended`).
- **Sending.** A command is dropped only when `ws` is null. Whether the socket
  is open is not checked.
- **Connection state.** It is the boolean `conectado`. There is no
  "connecting" state. Close and error clear the flag but leave `ws` set.
- **Poll period.** It is hard-coded as 2000 ms and is not read from
  `UPDATE_INTERVAL`.

## Model

| member | source | states |
|---|---|---|
| `Config.Config.WebSocketUrl` | dashboard-iot/src/config.js:7-9 | the URL starts with `ws://` and never with `wss://` |
| `Config.MaxHistoricalValue` | dashboard-iot/src/config.js:2-10 | `MAX_HISTORICAL` is 20 and the shipped URL is `ws://192.168.1.XXX:81` |
| `Config.ParseUrl` | dashboard-iot/src/config.js:8 | every URL the parser accepts is exactly `"ws://" + host + ":" + port` for the host and port it returns, and the host has no ':'; it rejects only URLs without the scheme or without a ':' after it |
| `Config.UrlRoundTrip` | dashboard-iot/src/config.js:8 | when the IP has no ':', parsing the URL gives back exactly the IP and the port |
| `Config.UrlDeterminesAddress` | dashboard-iot/src/config.js:7-9 | for colon-free IPs, two configurations give the same URL if and only if they have the same IP and port |
| `Config.UrlIgnoresTunables` | dashboard-iot/src/config.js:3-9 | changing `UPDATE_INTERVAL` or `MAX_HISTORICAL` leaves the URL unchanged |
| `History.Slice` | dashboard-iot/src/components/DashboardIoT.js:99 | `slice(start)` returns a suffix; for a negative start its length is `min(-start, length)` |
| `History.UpdateHistory` | dashboard-iot/src/components/DashboardIoT.js:95-102 | the new entry is always last; the updater adds at most one entry and never takes a history of at most `MAX_HISTORICAL + 1` entries beyond that bound |
| `History.UpdateOnEmpty` | dashboard-iot/src/components/DashboardIoT.js:97-99 | on an empty history the result is exactly `[entry]` |
| `History.UpdateUnchangedIff` | dashboard-iot/src/components/DashboardIoT.js:97-101 | the history comes back unchanged if and only if its last entry equals the new one in every field, timestamp included |
| `History.UpdateAppends` | dashboard-iot/src/components/DashboardIoT.js:99 | otherwise the result is the newest `min(n, MAX_HISTORICAL)` old entries in their order followed by the new one |
| `History.NewTimestampIsAppended` | dashboard-iot/src/components/DashboardIoT.js:90-98 | a repeat reading with a different timestamp is appended, not dropped |
| `History.UpdateKeepsAdjacentDistinct` | dashboard-iot/src/components/DashboardIoT.js:95-102 | the updater keeps a history with no two equal neighbours free of them |
| `History.ReplayAdjacentDistinct` | dashboard-iot/src/components/DashboardIoT.js:95-102 | from the empty history, no run of updates produces two equal neighbours |
| `History.ReplayIsNewestOfCollapse` | dashboard-iot/src/components/DashboardIoT.js:95-102 | from the empty history, the history is exactly the newest `MAX_HISTORICAL + 1` entries of the stream with repeated neighbours collapsed, oldest first (FIFO eviction) |
| `History.ReplayBounded` | dashboard-iot/src/components/DashboardIoT.js:95-102 | from the empty history, any run of updates keeps at most `MAX_HISTORICAL + 1` entries |
| `History.ReplayOfDistinct` | dashboard-iot/src/components/DashboardIoT.js:99 | a stream with no equal neighbours leaves its newest `MAX_HISTORICAL + 1` entries, so a long one leaves exactly 21 |
| `Actuators.SetMotorPaso` | dashboard-iot/src/components/DashboardIoT.js:126 | the stepper angle becomes the given value, unclamped, and the other fields are kept |
| `Actuators.SetServomotor` | dashboard-iot/src/components/DashboardIoT.js:131 | the servo angle becomes the given value and the other fields are kept |
| `Actuators.SetLuces` | dashboard-iot/src/components/DashboardIoT.js:137 | the lights take the given state and the other fields are kept |
| `Actuators.ToggleLucesTwice` | dashboard-iot/src/components/DashboardIoT.js:135-137 | negating the lights twice restores the actuator state |
| `Actuators.UpdatersCommute` | dashboard-iot/src/components/DashboardIoT.js:125-139 | updaters of different fields commute |
| `Actuators.LaterUpdateWins` | dashboard-iot/src/components/DashboardIoT.js:125-133 | of two updates of one angle the later one wins |
| `Actuators.Command` | dashboard-iot/src/components/DashboardIoT.js:50-53 | the command frame carries the tag and the value as given |
| `Actuators.PollRequestIsNoCommand` | dashboard-iot/src/components/DashboardIoT.js:157 | no command frame equals the `getDatos` poll request |
| `Dashboard.Dashboard.constructor` | dashboard-iot/src/components/DashboardIoT.js:28-45 | the first render: zero readings, zero angles, lights off, empty history, not connected, no socket, nothing sent |
| `Dashboard.Dashboard.HistoryInvariant` | dashboard-iot/src/components/DashboardIoT.js:95-102 | in every reachable state the history has at most `MAX_HISTORICAL + 1` entries and no equal neighbours, and it holds the newest entries of everything decoded |
| `Dashboard.Dashboard.EnviarComando` | dashboard-iot/src/components/DashboardIoT.js:47-56 | with `ws` null nothing is sent; otherwise exactly one frame `{tipo, valor}` with the value as given goes to `ws` |
| `Dashboard.Dashboard.ConectarWebSocket` | dashboard-iot/src/components/DashboardIoT.js:58-115 | a fresh socket for the configured URL becomes `ws` with `conectado` untouched, or, when construction throws, `conectado` is cleared and `ws` is kept |
| `Dashboard.Dashboard.OnOpen` | dashboard-iot/src/components/DashboardIoT.js:62-65 | the open event of any constructed socket sets `conectado` |
| `Dashboard.Dashboard.OnClose` | dashboard-iot/src/components/DashboardIoT.js:67-70 | the close event clears `conectado` and changes nothing else |
| `Dashboard.Dashboard.OnError` | dashboard-iot/src/components/DashboardIoT.js:72-75 | the error event clears `conectado` and changes nothing else |
| `Dashboard.Dashboard.OnMessage` | dashboard-iot/src/components/DashboardIoT.js:77-107 | a decoded reading replaces `sensores` whole and its timestamped entry goes through the history updater; a failed decode leaves `sensores` and `historicos` unchanged; the ghost stream of decoded entries grows by exactly that entry, or not at all |
| `Dashboard.Dashboard.ToggleConexion` | dashboard-iot/src/components/DashboardIoT.js:117-123 | when connected, exactly one close of `ws` is issued and nothing else changes; otherwise it connects and sends nothing |
| `Dashboard.Dashboard.ControlarMotorPaso` | dashboard-iot/src/components/DashboardIoT.js:125-128 | only the stepper field changes, and the `motorPaso` command goes out when there is a socket |
| `Dashboard.Dashboard.ControlarServomotor` | dashboard-iot/src/components/DashboardIoT.js:130-133 | only the servo field changes, and the `servomotor` command goes out when there is a socket |
| `Dashboard.Dashboard.ControlarLuces` | dashboard-iot/src/components/DashboardIoT.js:135-139 | the lights are negated and the new state goes out when there is a socket |
| `Dashboard.Dashboard.PollTick` | dashboard-iot/src/components/DashboardIoT.js:151-169 | a poll tick sends `{tipo: 'getDatos'}` to `ws` exactly when `conectado && ws`, and nothing otherwise |
| `Dashboard.Dashboard.CleanupSocket` | dashboard-iot/src/components/DashboardIoT.js:142-148 | the effect cleanup issues one close of `ws` when there is one, and nothing otherwise |

## Left out

- Rendering is not modelled: the JSX, the MUI components, the chart and the icons, including the float formatting with `toFixed`.
- The WebSocket transport is not modelled: connection, delivery, `readyState`, and the exception `send` throws on a socket that is still connecting. A socket is an object with identity, and `transport` records the calls the dashboard makes on it.
- `console` logging is not modelled. It is output only.
- `JSON.parse` is a parameter `decode` that returns `None` where it would throw. Only decoded values of the fixed reading shape are modelled. Other shapes (extra or missing keys, a non-object, a `timestamp` key) are not, and with a fixed shape, replacing the record and merging field by field cannot be told apart.
- `JSON.stringify` is not modelled. Entry equality is structural, so key order, which `JSON.stringify` is sensitive to, plays no part.
- Sensor readings are modelled as integers. Timestamps are opaque strings passed in as `now`, standing for `toLocaleTimeString`.
- The 100 ms debounce is not modelled. In the source, the timer handle read at line 78 is the value captured when `conectarWebSocket` ran, so bursts are not reliably coalesced. Each message is modelled as processed on its own.
- Timer scheduling is not modelled: the `setInterval` poll and the order in which React runs effects and their cleanups. The poll is its guard plus one tick (`PollTick`). `CleanupSocket` is the cleanup as a method the model does not schedule.
- Stale React closures are not modelled. `controlarLuces` reads `actuadores.luces` from the last render, and each handler is modelled on the current state.
- The `try/catch` around the poll's `send` is not modelled, because the model's sends do not throw.
- `Config.ParseUrl`: it splits at the first ':' after the scheme, so the round trip is stated for IPs without ':'. IPv6 literals are outside it.
