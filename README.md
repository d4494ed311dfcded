# Live multi-counter page: client state machine

This project models the client logic of the counter page `app/page.tsx`.
The page keeps a map from counter names to values. It shows that map, sends
intents (create, increment, decrement, set, delete) to a server over one
WebSocket, and updates the map only from the server's `counter` and
`deleted` frames.

Files:

- `messages.dfy` (module `Messages`): the `Message` record used in both directions. It also holds a decoded inbound frame (`Parsed` or `ParseError`), the `Counters` map, and JavaScript truthiness of the optional name.
- `js_string.dfy` (module `JsString`): `String.prototype.trim`. Its whitespace set is ECMAScript's WhiteSpace and LineTerminator code points.
- `reconciliation.dfy` (module `Reconciliation`): the two `setCounters` updaters and the `onmessage` dispatch as pure functions. It also has lemmas about one frame, and a last-write-wins reference (`LastWord`) for a run of frames.
- `home.dfy` (module `CounterPage`): class `Home`, with one field per `useState` and an `outbox` of sent messages. It has one method per socket callback and per handler. Each method's `modifies` clause names exactly the fields that handler sets. A few client methods drive the class through the page's usual sequences and check the outcome from the contracts alone.

Two things about the socket are not modelled directly:

- Whether `wsRef.current` exists and is in the `OPEN` ready state when a handler runs. Each sending handler takes this as the parameter `socketOpen`. The page gates sending on the socket's ready state, not on the `isConnected` flag, so the two are kept apart.
- `ws.send`, which is modelled as appending the record to `outbox`.

Some of the page's behaviour differs from what one might expect of a synchronised counter client. The model follows the page as written:

- Closing or losing the connection does not clear the snapshot. `onclose` and `onerror` only lower `isConnected` (lines 72-80). So `OnClose`/`OnError` leave `counters` alone, and `DisconnectKeepsSnapshot` shows that the stale map stays in place after a close. The socket is opened once per mount (lines 25-31, 88), so there is no reconnect.
- Increment and decrement are sent without checking that the counter exists (lines 107-113).
- `handleCreateCounter` does not check connectivity itself; it checks only the trimmed name (lines 120-126). The page disables the name input, the initial-value input and the Create button while `isConnected` is false (lines 196, 210, 216). If the handler runs while the flag is still true but the socket is not OPEN (for example CLOSING before `onclose` fires), it sends nothing and still clears both inputs.
- Connectivity is one boolean, not an enumeration of connection states.
- `create` sends the untrimmed name. Only the emptiness test uses `trim()`.
- An inbound `counter` frame's `value` is never checked to be numeric. Any value other than `undefined` passes the guard at line 45 and is stored as it is at line 55.

## Model

| member | source | states |
|---|---|---|
| JsString.Trim | app/page.tsx:121 | `trim()` is empty exactly when every character is whitespace. A non-empty result neither starts nor ends with whitespace. The result is an infix of the input with only whitespace cut from either side. |
| JsString.TrimStart | app/page.tsx:121 | The result is a suffix of the input. Everything cut is whitespace, and the result does not start with whitespace. |
| JsString.TrimEnd | app/page.tsx:121 | The result is a prefix of the input. Everything cut is whitespace, and the result does not end with whitespace. |
| Reconciliation.Upsert | app/page.tsx:53-56 | The spread updater adds the name to the keys and maps it to the new value, whether or not it was there. Every other key keeps its value. |
| Reconciliation.Remove | app/page.tsx:59-63 | The copy-and-delete updater drops exactly that key. Every remaining key keeps its value. |
| Reconciliation.Apply | app/page.tsx:37-70 | A `counter` frame with a truthy name and a defined value makes the name read as that value. A `deleted` frame with a truthy name makes it absent. No other name changes. Any other frame, including a parse failure, leaves the map equal to the old one. |
| Reconciliation.ZeroValueApplied | app/page.tsx:42-56 | A value of 0 is written, because the guard is `!== undefined` and not truthiness. |
| Reconciliation.EmptyNameIgnored | app/page.tsx:42-66 | An empty-string name fails both guards, so the map is unchanged, whatever the type and value. |
| Reconciliation.DeleteAbsentUnchanged | app/page.tsx:57-63 | Deleting a name the map does not hold leaves the map unchanged. |
| Reconciliation.ApplyIdempotent | app/page.tsx:37-70 | Receiving any frame twice has the same effect as receiving it once. In particular, a repeated delete is the same as one delete. |
| Reconciliation.LaterFrameOverrides | app/page.tsx:53-63 | A handled frame for a counter erases the effect of any earlier frame for the same counter. |
| Reconciliation.DistinctCountersCommute | app/page.tsx:53-63 | Frames that do not both act on the same counter can be applied in either order. |
| Reconciliation.LastWriteWins | app/page.tsx:37-70 | After a run of frames, each counter reads as the last handled frame about it says. If no frame mentions it, it keeps its starting entry. |
| Reconciliation.Convergence | app/page.tsx:37-70 | Two runs of frames that give the same last word for every counter produce the same map. Intermediate values do not matter. |
| CounterPage.Home.constructor | app/page.tsx:17-23 | The initial state is an empty map, disconnected, empty inputs, no edit session and nothing sent. |
| CounterPage.Home.OnOpen | app/page.tsx:32-35 | `isConnected` becomes true. No other field changes, including `counters`. |
| CounterPage.Home.OnClose | app/page.tsx:72-75 | `isConnected` becomes false. `counters` is not cleared. |
| CounterPage.Home.OnError | app/page.tsx:77-80 | `isConnected` becomes false. `counters` is not cleared. |
| CounterPage.Home.OnMessage | app/page.tsx:37-70 | The snapshot becomes `Apply` of the old snapshot and the frame. It is the only method allowed to write `counters`. |
| CounterPage.Home.SendMessage | app/page.tsx:94-105 | When the socket is open, exactly one `{type, counter, value}` record is appended to the outbox. Otherwise nothing is sent. |
| CounterPage.Home.HandleIncrement | app/page.tsx:107-109 | When the socket is open, sends one `increment` record for the name; otherwise sends nothing. There is no existence check and the snapshot is not touched. |
| CounterPage.Home.HandleDecrement | app/page.tsx:111-113 | When the socket is open, sends one `decrement` record for the name; otherwise sends nothing. There is no existence check and the snapshot is not touched. |
| CounterPage.Home.HandleSetValue | app/page.tsx:115-118 | When the socket is open, sends one `set` record. It ends the edit session whether or not anything was sent. |
| CounterPage.Home.HandleCreateCounter | app/page.tsx:120-126 | If the name is not all whitespace: sends `create` with the untrimmed name and the initial value, then resets the inputs to `""` and 0. If it is all whitespace: sends nothing and changes no field. |
| CounterPage.Home.HandleDeleteCounter | app/page.tsx:128-134 | Sends one `delete` record only when the confirmation was accepted and the socket is open; otherwise sends nothing. |
| CounterPage.Home.StartEditing | app/page.tsx:136-139 | The single edit slot now holds this counter and value, replacing any earlier session. |
| CounterPage.Home.CancelEditing | app/page.tsx:333-338 | Ends the edit session and sends nothing. |
| CounterPage.Home.CommitEditing | app/page.tsx:327-332 | The Set button of the edited counter sends `set` for that counter with the pending value, then ends the session. |
| CounterPage.Home.HandleKeyPress | app/page.tsx:141-145 | Enter behaves as `HandleCreateCounter`. Any other key changes nothing. |
| CounterPage.Home.ChangeNewCounterName | app/page.tsx:190-194 | The name input holds the typed text. |
| CounterPage.Home.ChangeNewCounterValue | app/page.tsx:204-209 | The initial-value input holds the parsed number. |
| CounterPage.Home.ChangeEditValue | app/page.tsx:319-324 | The pending edit value holds the parsed number. |

## Left out

- Rendering (JSX, Tailwind classes, the order counters are listed in): presentation only. The Set and Cancel buttons are modelled as the handlers they call.
- The `disabled` attributes: the page's only connectivity gate on user actions. While `isConnected` is false they disable the name and initial-value inputs (lines 196, 210) and the Create, Delete, increment, decrement and Set Value buttons (lines 216, 244, 275, 296, 345). The edit input and the Set and Cancel buttons (lines 319-338) have no such gate. The model lets every handler run in every state, which covers more states than the page can reach.
- Constructing the WebSocket, the endpoint taken from `NEXT_PUBLIC_WS_URL`, and the unmount cleanup that closes an open socket: I/O plumbing. The socket's ready state is the `socketOpen` parameter and `ws.send` is the `outbox`.
- `JSON.parse` and `JSON.stringify`: library calls. Inbound frames arrive already decoded, as a `Message` or `ParseError`.
- `console.log`/`console.error` and the effect that logs `counters`: no effect on state.
- `confirm()`: a browser dialog. Its answer is the `confirmed` parameter of `HandleDeleteCounter`.
- `parseInt(...) || 0` in the number inputs: browser string-to-number conversion. The resulting integer is the input to `ChangeNewCounterValue`/`ChangeEditValue`.
- React's asynchronous state batching: each handler is one atomic update of the fields.
- Reconnection: the page never reconnects, so neither does the model.
- Reconciliation.Apply: counter values are integers and the name is an optional string. The page stores any `value` other than `undefined` without a type check (lines 45, 55). The model cannot represent a JSON `null`, a non-integer number, a string, a boolean, an object or an array as a value, though each would pass that guard and be stored. Nor can it represent a truthy non-string name.
- JsString.Trim: strings are sequences of Unicode scalar values. Lone UTF-16 surrogates of JavaScript strings are not represented.
