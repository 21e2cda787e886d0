# Control-panel client logic, modelled in Dafny

This project models the logic of a desktop device-farm control panel (a Tauri
and React application). Most of that application is presentation. Its logic
falls into five pieces, one module each:

- `RealtimeChannel` (`realtime_channel.dfy`) models the WebSocket provider. The
  class `Client` holds the provider's state: the current socket handle with its
  ready state, the `connected` flag, the last parsed response, the last error
  text and the `shouldReconnect` flag. The socket callbacks (open, message,
  close, error), a firing retry timer, the manual `reconnect`, `sendMessage`
  and the unmount cleanup are methods that update this state in place. What
  the provider asks of sockets is logged in order in `transport`:
  `Created`, `Transmitted` or `CloseRequested`. Each retry that has been
  scheduled and has not fired yet is an entry of `pending`, holding its delay.
  The socket constructor is an oracle: `failure` is the text of the error it
  throws, or None when it succeeds. `JSON.parse` is another oracle: a function
  from the payload to a value or an error text.
- `DeviceList` (`device_list.dfy`) models the `useDevices` hook. A list of
  device records, each with an `isSelected` flag, is replaced by select-all
  and by toggle-one. Both are pure list functions. The "load devices" command
  goes through the channel.
- `DevicesView` (`devices_view.dfy`) models the devices page. The class `View`
  keeps the selected ids as a list, together with the header flag
  `allSelected`. Its invariant says three things: no id appears twice, only
  listed ids appear, and the flag is true exactly when every listed id is
  selected.
- `CommandConsole` (`command_console.dfy`) models the WebSocket test console.
  It tracks the typed command, the command history, the response history and
  the history toggle. Sends are guarded and go through the channel.
- `DevToolsGuard` (`devtools_guard.dfy`) models the two start-up listeners.
  The key-down listener suppresses F12 and Ctrl/Cmd+Shift+I, J and C. The
  context-menu listener suppresses every event.

`Wrappers` (`wrappers.dfy`) holds the shared `Option` and `Result` types.

Integers are unbounded. The counts and ids of the source are small and
cannot wrap. The retry delay is a natural number of milliseconds (see
"Left out"). Strings are `seq<char>`.

Some of the code's behaviour is easy to misread, and the model follows the
code:

- A socket constructor that throws sets the error text and schedules one
  retry. The `connected` flag is left as it was, and no separate "error"
  connection state exists.
- The provider keeps only the last response. The response history belongs to
  the console, and the console appends only truthy values.
- A manual reconnect closes the old socket only when it is OPEN. A CONNECTING
  socket is replaced without being closed.
- Nothing prevents a second live socket: `RetryAfterManualReconnect` builds
  one.

## Model

| member | source | states |
|---|---|---|
| `RealtimeChannel.Client.constructor` | src/components/WebSocketProvider.tsx:30-39 | The retry delay defaults to 3000 ms when none is given. At the start there is no socket, the client is disconnected, the response is null, there is no error, reconnecting is on, and nothing is pending or logged. |
| `RealtimeChannel.Client.Connect` | src/components/WebSocketProvider.tsx:42-92 | With reconnecting off, nothing changes at all. Otherwise a new CONNECTING socket with a fresh id becomes the instance and its creation is logged. If the constructor throws, the error becomes "Connection error: ..." and exactly one retry at `reconnectDelay` is appended, and the instance and the log are left as they were. The connected flag and the response are never touched. |
| `RealtimeChannel.Client.OnOpen` | src/components/WebSocketProvider.tsx:48-52 | The current socket becomes OPEN, the client is connected and the error is cleared. Nothing else changes. |
| `RealtimeChannel.Client.OnMessage` | src/components/WebSocketProvider.tsx:54-63 | A payload that parses replaces the response and leaves the error. A parse failure sets "Error parsing message: ..." and leaves the response. In both cases the connection state, the instance, the retries and the log are unchanged. |
| `RealtimeChannel.Client.OnClose` | src/components/WebSocketProvider.tsx:65-76 | The client is disconnected and has no instance. Exactly one retry at `reconnectDelay` is appended when `shouldReconnect` holds, and none otherwise. A state with at most one socket or retry in flight keeps that property. |
| `RealtimeChannel.Client.OnError` | src/components/WebSocketProvider.tsx:78-81 | Only the error changes, to "WebSocket error: [object Event]". The connected flag is untouched. |
| `RealtimeChannel.Client.FireRetry` | src/components/WebSocketProvider.tsx:72-75 | The oldest retry leaves `pending` and `connectWebSocket` runs, guarded by the client's current `shouldReconnect`, so in this model a retry firing after unmount creates nothing. If construction fails again, a new retry replaces the old one, so the queue keeps its length. |
| `RealtimeChannel.Client.Reconnect` | src/components/WebSocketProvider.tsx:95-101 | A close is logged only when the current socket is OPEN, and it comes before the new socket's creation. Reconnecting is turned on. The connected flag is unchanged. Reconnecting while a retry is pending leaves a socket and a retry in flight at once. |
| `RealtimeChannel.Truthy` | src/components/WebSocketTest.tsx:58-60 | JavaScript truthiness of a parsed response: null, false, 0 and "" are falsy, and every array and object, even an empty one, is truthy. |
| `RealtimeChannel.CloseSocket` | src/components/WebSocketProvider.tsx:97 | `close()` keeps the socket's id and url, moves a CONNECTING or OPEN socket to CLOSING and leaves a CLOSING or CLOSED one as it was. Afterwards the socket is neither OPEN nor CONNECTING. |
| `RealtimeChannel.SendRefusal` | src/components/WebSocketProvider.tsx:106-115 | The send goes through if and only if there is an instance, it is OPEN and the message is non-empty. Otherwise the reason is the first that applies, in this order: "WebSocket not initialized", then "WebSocket not connected", then "Message empty". Each reason is stated in both directions. |
| `RealtimeChannel.Client.SendMessage` | src/components/WebSocketProvider.tsx:104-123 | Returns true if and only if there is an OPEN instance and a non-empty message. In that case exactly this message is logged as transmitted on that socket. Otherwise nothing is transmitted and the error becomes "Send error: " followed by the reason. No other field changes, and an empty message never reaches the log. |
| `RealtimeChannel.Client.Unmount` | src/components/WebSocketProvider.tsx:130-135 | Reconnecting is turned off. The current socket, if there is one, is asked to close and moves to CLOSING. The flags, the response, the error and the retries are unchanged. |
| `RealtimeChannel.UseChannel` | src/components/WebSocketProvider.tsx:158-164 | Returns the client if and only if a provider is present. Otherwise it returns the error "useWebSocket must be used within a WebSocketProvider". |
| `RealtimeChannel.ReconnectWhileOpen` | src/components/WebSocketProvider.tsx:95-119 | Connect, open, then reconnect: the log is create 0, close 0, create 1. `connected` is still true, and a send made now fails with "Send error: WebSocket not connected". |
| `RealtimeChannel.RetryAfterManualReconnect` | src/components/WebSocketProvider.tsx:65-101 | Connect, open, close, reconnect, then the retry fires: sockets 0, 1 and 2 are created and socket 1 is never asked to close. |
| `RealtimeChannel.UnmountStopsRetries` | src/components/WebSocketProvider.tsx:126-136 | In this model, where every handler reads the current `shouldReconnect`, a retry scheduled before unmount fires afterwards and creates no socket. The source behaves differently (see "Left out"). |
| `DeviceList.AllSelected` | src/hooks/useDevices.ts:78 | `allSelected` holds exactly when every device is selected, so it is true on the empty list. |
| `DeviceList.WithSelection` | src/hooks/useDevices.ts:44-47 | Same length and order. Device i is device i of the input with `isSelected` set to the given value and every other field kept. |
| `DeviceList.SelectAll` | src/hooks/useDevices.ts:42-49 | Same length and order. Every device keeps all its fields except `isSelected`, which becomes "not all were selected". |
| `DeviceList.ToggleDevice` | src/hooks/useDevices.ts:51-62 | Same length. Every device with the given id has `isSelected` flipped, and every other device is unchanged. |
| `DeviceList.MockStatus` | src/hooks/useDevices.ts:22-26 | The status text "Change info thành công: <brand>/..." for one of the five brands. A brand index given as a parameter stands for the random draw. |
| `DeviceList.InitialDevices` | src/hooks/useDevices.ts:15-30 | The initial value of the device atom. Device i (from 0) has id i + 1, name and model "SM-G950F", os "9", xu 0, the status for brand index i, is connected and is not selected. |
| `DeviceList.InitialDevicesShape` | src/hooks/useDevices.ts:15-30 | The initial list has 25 devices with ids 1..25 in order, all connected and none selected. |
| `DeviceList.SelectAllOutcome` | src/hooks/useDevices.ts:42-48 | If all were selected, none are afterwards. Otherwise all are. All are selected afterwards if and only if the list is empty or not all were selected. |
| `DeviceList.SelectAllTwice` | src/hooks/useDevices.ts:42-48 | On every list, applying select-all twice gives back the initial "all selected" value. When that value was false, nothing is selected at the end. |
| `DeviceList.ToggleTwice` | src/hooks/useDevices.ts:53-58 | Toggling the same id twice restores the list exactly. |
| `DeviceList.ToggleAbsent` | src/hooks/useDevices.ts:53-58 | Toggling an id that no device has leaves the list unchanged. |
| `DeviceList.ToggleCommutes` | src/hooks/useDevices.ts:51-62 | Toggling two ids gives the same list in either order. |
| `DeviceList.HandleLoadDevices` | src/hooks/useDevices.ts:64-70 | When the channel is connected, it performs exactly one `sendMessage("devices")`. Otherwise neither the channel nor anything else changes. |
| `DevicesView.Ids` | src/views/devices/DevicesView.tsx:48 | One id per device, in list order: entry i is the id of device i. |
| `DevicesView.Without` | src/views/devices/DevicesView.tsx:55 | The filtered selection holds every id of the old one except the removed id. It never adds an id, and it keeps the selection free of duplicates. Removing an id that is not selected returns the selection unchanged. Removing a selected id from a duplicate-free selection shortens it by exactly one, so the footer's count drops by one. |
| `DevicesView.CountConnected` | src/views/devices/DevicesView.tsx:129 | The connected count is at most the number of devices, and equal to it if and only if every device is connected. |
| `DevicesView.CountConnectedIsFilterLength` | src/views/devices/DevicesView.tsx:129 | The connected count equals the number of positions holding a connected device, which is the length of `devices.filter(d => d.isConnected)`. |
| `DevicesView.CoveredIffFull` | src/views/devices/DevicesView.tsx:57-61 | A duplicate-free selection of listed ids is never longer than the list. It holds every listed id if and only if its length equals the list's. This is the fact that the handler's length test relies on. |
| `DevicesView.MockStatus` | src/views/devices/DevicesView.tsx:36-40 | The page's status text "Change info thành công: <brand>/..." for one of its five brands. A brand index given as a parameter stands for the random draw. |
| `DevicesView.MockDevices` | src/views/devices/DevicesView.tsx:30-42 | The page's own mock list, built from the page's own literals. Device i (from 0) has id i + 1, name and model "SM-G950F", os "9", xu 0, the status for brand index i, and is connected. |
| `DevicesView.MockDevicesShape` | src/views/devices/DevicesView.tsx:30-42 | The mock list has 25 devices with ids 1..25 and no repeated id, and all of them are connected. |
| `DevicesView.View.constructor` | src/views/devices/DevicesView.tsx:25-42 | The page starts with the mock list, an empty selection and the header unchecked, and the invariant already holds. |
| `DevicesView.View.HandleSelectAll` | src/views/devices/DevicesView.tsx:44-51 | With the header checked, the selection becomes empty. Otherwise it becomes every device id in list order. Either way the flag flips and the invariant is kept. |
| `DevicesView.View.HandleSelectDevice` | src/views/devices/DevicesView.tsx:53-63 | A selected id is removed and the header is unchecked. An unselected id is appended at the end. The header is then checked when the new length equals the device count, and is left unchanged otherwise. The invariant is kept: no duplicates, only listed ids, and the flag true exactly when every id is selected. |
| `DevicesView.View.RowChecked` | src/views/devices/DevicesView.tsx:101 | A row's checkbox is checked exactly when its id is in the selection. |
| `DevicesView.View.HeaderChecked` | src/views/devices/DevicesView.tsx:74-101 | The header checkbox is checked if and only if every row's checkbox is checked. |
| `DevicesView.View.Footer` | src/views/devices/DevicesView.tsx:127-131 | The footer shows the selection's length, the number of connected devices (the length of the filtered list) and the total. The selected count never exceeds the total, and equals it if and only if the header is checked. |
| `CommandConsole.CommandLabel` | src/components/WebSocketTest.tsx:132 | A history label is never empty. It is the command at the same index when there is one and it is non-empty, and "unknown" otherwise. |
| `CommandConsole.PresetsNonEmpty` | src/components/WebSocketTest.tsx:6-11 | No quick command is empty. |
| `CommandConsole.Console.constructor` | src/components/WebSocketTest.tsx:15-18 | The console starts with an empty input, empty histories and the history panel hidden. |
| `CommandConsole.Console.HandleCommandChange` | src/components/WebSocketTest.tsx:20-25 | The input takes the typed value, and the histories and the toggle are unchanged. |
| `CommandConsole.Console.HandleSendCommand` | src/components/WebSocketTest.tsx:27-33 | With a non-empty command and a connected channel, it sends exactly that command, appends it to the command history and clears the input. In every other case neither the console nor the channel changes. |
| `CommandConsole.Console.HandlePresetCommand` | src/components/WebSocketTest.tsx:35-43 | With a connected channel, the quick command is sent and appended to the history, and the typed input is left untouched. Otherwise nothing changes. |
| `CommandConsole.Console.HandleKeyDown` | src/components/WebSocketTest.tsx:45-52 | Enter has exactly the effect of Send. Any other key changes nothing. |
| `CommandConsole.Console.ToggleHistory` | src/components/WebSocketTest.tsx:54-56 | Visibility flips and nothing else changes, so toggling twice restores it. |
| `CommandConsole.Console.OnResponse` | src/components/WebSocketTest.tsx:58-62 | A truthy response is appended. Null, false, 0 and "" are not. The history only grows, in arrival order. |
| `CommandConsole.Console.DisplayedHistory` | src/components/WebSocketTest.tsx:125-138 | Nothing is listed unless the panel is toggled on and holds a response. Then there is one entry per response, in order. Response i is shown with command i, or with "unknown" when the command history is shorter. |
| `DevToolsGuard.DefaultPrevented` | src/main.tsx:6-44 | Whether a listener calls `preventDefault`. The context-menu listener always calls it. The key-down listener calls it exactly when one of its four rules matches. |
| `DevToolsGuard.MatchedShortcut` | src/main.tsx:16-44 | A key event is suppressed if and only if its key is F12, or Ctrl or Cmd is held with Shift on "I", "J" or "C". F12 is exactly the DevTools rule. The other rules need Shift and Ctrl or Cmd. |
| `DevToolsGuard.ContextMenuAlwaysSuppressed` | src/main.tsx:6-13 | Every context-menu event is suppressed. |
| `DevToolsGuard.F12AlwaysSuppressed` | src/main.tsx:20-23 | F12 is suppressed whatever modifiers are held. |
| `DevToolsGuard.ChordsSuppressed` | src/main.tsx:25-41 | Ctrl/Cmd+Shift with I, J and C are each suppressed by their own rule. |
| `DevToolsGuard.MetaActsAsCtrl` | src/main.tsx:26-38 | Cmd instead of Ctrl gives the same result. |
| `DevToolsGuard.AltIgnored` | src/main.tsx:16-44 | Alt does not affect the result. |
| `DevToolsGuard.ChordNeedsBothModifiers` | src/main.tsx:26-41 | Without Shift, or with neither Ctrl nor Cmd held, only F12 is suppressed. |
| `DevToolsGuard.LowerCasePasses` | src/main.tsx:26-38 | Matching is case-sensitive: "i", "j", "c" and "f12" pass through. |
| `DevToolsGuard.OtherKeysPass` | src/main.tsx:16-44 | Every key other than F12, I, J and C passes through. |

## Left out

- Every socket event is delivered to the provider's current socket. Some events come from a socket that has been replaced, such as the late close event of the socket that a manual reconnect closed. The source runs its close handler for those too: it clears the new instance and schedules one more retry. The model does not follow that interleaving.
- React's closure and re-render semantics are not modelled. Under them, `reconnect` runs a `connectWebSocket` that captured the old `shouldReconnect`. The mount effect runs again when `connectWebSocket` changes identity, and the unmount cleanup closes the instance that it captured. The provider is one object with sequential updates.
- RealtimeChannel.UnmountStopsRetries, RealtimeChannel.Client.FireRetry and RealtimeChannel.Client.OnClose read the client's current `shouldReconnect`. In the source, the retry timer runs the `connectWebSocket` closure that scheduled it, and the close handler belongs to that closure too. That closure passed the guard, so the flag it captured is true. The cleanup's `setShouldReconnect(false)` never reaches it. A retry scheduled before unmount therefore still creates a socket in the source, and a close after unmount still schedules a retry. The model does not capture this.
- RealtimeChannel.Client.constructor takes the retry delay as a natural number of milliseconds. The source accepts any JavaScript number, including negative, fractional and NaN values, which `setTimeout` treats as 0 or truncates.
- The real WebSocket transport, the timers and `JSON.parse` are not modelled. They are the ready-state abstraction, the `pending` delays and the parse oracle. The timer for a retry is not cancellable in the source either.
- The `console.log` and `console.error` output is left out. So is the `useDevices` effect that only logs responses.
- RealtimeChannel.Client.OnOpen and RealtimeChannel.Client.OnClose require a current socket, and OnOpen requires it to be CONNECTING. These are guarantees of the browser's event order, not checks in the code.
- CommandConsole.Console.OnResponse runs for each new `wsResponse`. React's `Object.is` check, which skips a re-parsed primitive equal to the previous one, is not modelled.
- JSON numbers are reals, and IEEE rounding is not modelled.
- The random draw of each mock device's status brand is not modelled. A brand index given as a parameter stands for `Math.random`.
- DevicesView.View keeps one fixed device list. The page rebuilds it on every render with fresh random statuses and the same ids and flags.
- DevicesView.View.HandleSelectDevice requires a listed id, because its only callers are the row checkboxes.
- CommandConsole.Console.HandlePresetCommand requires one of the four quick commands, because its only callers are their buttons.
- The disabled states of the buttons and of the input are not modelled. The handlers' own guards are.
- The listeners' capture phase and their `return false` are not modelled. Only `preventDefault` is.
- The HTTP health check, the native shell commands, the Python backend, the settings and TikTok views, the layout's system-info polling and the theme toggle are not part of this model.
