# Anonymous chat client: session engine

This project models the session engine of the `ChatUI` component of an
anonymous one-on-one chat client. The component keeps one WebSocket to a
matchmaking server and reads JSON frames from it. It shows a status
(disconnected, searching, matched), a room id, a message log and a
"partner is typing" indicator. Three intents send frames back: chat,
typing and next.

The model has six modules:

- `Protocol` (protocol.dfy) holds the session record and the `onmessage`
  dispatch as a pure function `Apply(session, frame)`. One lemma per frame
  type says exactly what that frame does.
- `Trace` (trace.dfy) applies a whole sequence of frames (`Run`). Its
  lemmas say what the sequence leaves in the log, the room and the status.
  Each one refers to an independent description of the frames: the entries
  each frame posts, and the last frame that sets the room or the status.
  Unrecognised frames can be removed from any sequence without effect.
- `Client` (client.dfy) holds the class `ChatClient`. It has the session
  fields, the input field and every socket created so far with its
  `readyState`. `wsRef.current` is an index into that list. It also keeps
  every `send` call that did not throw (the outbox), the pending reconnects and the pending
  typing clears. Socket callbacks and timer firings are methods.
  `Attempt` says how a send intent ends: its guard returns, `send` throws
  because the current socket is still connecting, or the frame is handed
  to `send`. The object
  invariant `Valid` says that no socket other than the current one is
  opening or open.
- `Text` (text.dfy) is `String.prototype.trim`, applied to the chat input.
- `Scenarios` (scenarios.dfy) holds runs of the client that start from the
  first render, proved from the class contracts alone. One of them calls
  `sendTyping` directly, where the page's disabled input would not.
- `Wrappers` (wrappers.dfy) holds `Option`, which models JavaScript's
  `null` / `undefined`.

Inputs the model turns into parameters:

- A frame's text, and whether it parsed, is a `Frame` value.
- The browser's socket events are the methods `OnOpen`, `OnMessage`,
  `OnClose` and `OnError`, each given the index of the socket that fires.
- A timer firing is `FireReconnect` or `FireTypingClear`.

Where one might expect a tidier state machine, the model follows the code:

- A `searching` frame keeps the room id (`Protocol.SearchingKeepsRoom`), and
  so does a socket close (`Scenarios.CloseWhileMatched`). So "matched exactly
  when a room is set" does not hold.
- `chat`, `partner_disconnect` and `system` frames are handled in every
  status.
- Each `typing` frame schedules its own clear and none is cancelled. So the
  indicator is not debounced (`Scenarios.TypingClearsAreIndependent`).
- The send intents check only that a socket reference exists, not that the
  socket is open. A socket that is still connecting makes `send` throw an
  InvalidStateError (the WebSocket standard), and the rest of the intent
  does not run (`Scenarios.NextWhileConnecting`).

## Model

| member | source | states |
|---|---|---|
| `Protocol.Apply` | src/components/ChatUI.jsx:47-73 | whatever the status: a `matched` frame empties the log; any other frame keeps the old log as a prefix and adds at most one entry |
| `Protocol.SearchingFrame` | src/components/ChatUI.jsx:51-52 | `searching` sets the status to searching and changes nothing else, the room id included |
| `Protocol.MatchedFrame` | src/components/ChatUI.jsx:53-57 | `matched` gives status matched and the frame's room id, clears the typing flag, and leaves an empty log whatever it held |
| `Protocol.ChatFrame` | src/components/ChatUI.jsx:58-60 | `chat` keeps the status and room, clears typing, and appends exactly one `{partner, text}` after the unchanged earlier entries |
| `Protocol.UnparsableIsChat` | src/components/ChatUI.jsx:49-60 | a frame that is not JSON is handled exactly like a `chat` frame whose text is the raw frame, unmodified |
| `Protocol.TypingFrame` | src/components/ChatUI.jsx:61-62 | `typing` only sets the typing flag; the clear it schedules is in `Client.ChatClient.OnMessage` |
| `Protocol.PartnerDisconnectFrame` | src/components/ChatUI.jsx:65-69 | `partner_disconnect` gives status searching, no room, typing cleared, and exactly one appended system notice with the fixed text |
| `Protocol.SystemFrame` | src/components/ChatUI.jsx:70-71 | `system` appends one system entry with the frame's text; nothing else changes |
| `Protocol.UnrecognisedFrame` | src/components/ChatUI.jsx:50-72 | a frame whose type is none of the six leaves the entire session unchanged and schedules nothing |
| `Protocol.SearchingKeepsRoom` | src/components/ChatUI.jsx:51-57 | after `matched` then `searching`, the status is searching while the room id is still set |
| `Trace.RunAppend` | src/components/ChatUI.jsx:47-73 | handling frames `a` and then `b` is the same as handling `a + b` |
| `Trace.LogWithoutMatch` | src/components/ChatUI.jsx:58-71 | with no `matched` frame, the log ends as the old log followed by each frame's own entries in arrival order |
| `Trace.LogSinceLastMatch` | src/components/ChatUI.jsx:53-71 | after the last `matched` frame, the log holds exactly the entries posted by the frames after it |
| `Trace.IgnoredFramesDropOut` | src/components/ChatUI.jsx:50-72 | removing the unrecognised frames from any sequence does not change the resulting session |
| `Trace.RoomKept` | src/components/ChatUI.jsx:51-72 | with no `matched` or `partner_disconnect` frame, the room id is unchanged |
| `Trace.RoomAfterLastSetter` | src/components/ChatUI.jsx:53-67 | otherwise the last such frame decides the room: its room id for `matched`, none for `partner_disconnect` |
| `Trace.StatusKept` | src/components/ChatUI.jsx:51-72 | with no `searching`, `matched` or `partner_disconnect` frame, the status is unchanged |
| `Trace.StatusAfterLastSetter` | src/components/ChatUI.jsx:51-66 | otherwise the last such frame decides the status: matched for `matched`, searching for the other two |
| `Text.TrimStart` | src/components/ChatUI.jsx:86 | the result is a suffix of the input, everything removed is white space, and it does not start with white space |
| `Text.TrimEnd` | src/components/ChatUI.jsx:86 | the result is a prefix of the input, everything removed is white space, and it does not end with white space |
| `Text.Trim` | src/components/ChatUI.jsx:86 | the result has no white space at either end, and it is empty exactly when the input is all white space |
| `Text.TrimIsSlice` | src/components/ChatUI.jsx:86 | the trimmed text is a slice of the input with only white space on either side |
| `Client.Code` | src/components/ChatUI.jsx:39 | the numeric `readyState` is at most 3, and it is 0 or 1 exactly for a connecting or open socket |
| `Client.AfterClose` | src/components/ChatUI.jsx:81 | `ws.close()` leaves a socket neither connecting nor open, and already-closing or closed sockets are untouched |
| `Client.ChatClient.constructor` | src/components/ChatUI.jsx:5-10 | initial session (disconnected, no room, empty log, no typing), empty input, no socket, nothing sent or scheduled |
| `Client.ChatClient.OneLiveSocket` | src/components/ChatUI.jsx:38-41 | under the object invariant, two sockets that are both connecting or open are the same socket |
| `Client.ChatClient.Connect` | src/components/ChatUI.jsx:38-45 | no new socket while the current one is connecting or open; otherwise exactly one new connecting socket, which becomes current; nothing else changes |
| `Client.ChatClient.OnOpen` | src/components/ChatUI.jsx:43-45 | the opening socket (always the current one) becomes open and the status becomes searching; nothing else changes |
| `Client.ChatClient.OnMessage` | src/components/ChatUI.jsx:47-73 | the socket is the current one; the session becomes `Apply` of the old session and the frame; a typing frame adds one pending clear and removes none |
| `Client.ChatClient.OnClose` | src/components/ChatUI.jsx:75-78 | the socket becomes closed, the status disconnected, and exactly one more reconnect is pending; room and log are kept |
| `Client.ChatClient.OnError` | src/components/ChatUI.jsx:80-82 | the socket is closed by `ws.close()`; the session and timers are unchanged |
| `Client.ChatClient.FireReconnect` | src/components/ChatUI.jsx:77 | one pending reconnect is consumed and `connect` runs with its guard |
| `Client.ChatClient.FireTypingClear` | src/components/ChatUI.jsx:64 | the typing flag becomes false and exactly one pending clear is consumed; the others stay pending |
| `Client.ChatClient.SetInput` | src/components/ChatUI.jsx:149 | the input field takes the typed text; nothing else changes |
| `Client.ChatClient.SendMessage` | src/components/ChatUI.jsx:85-91 | with a blank trimmed input or no socket, the guard returns; on a connecting socket `send` throws. In both cases nothing changes and no frame is recorded. Otherwise one chat frame with the trimmed text goes out on the current socket, `{me, text}` is appended and the input cleared |
| `Client.ChatClient.SendTyping` | src/components/ChatUI.jsx:93-96 | exactly one typing frame when a socket exists and is not connecting; nothing when there is none, or when a connecting socket makes `send` throw; the session never changes |
| `Client.ChatClient.NextPartner` | src/components/ChatUI.jsx:98-102 | when a socket exists and is not connecting, exactly one next frame and the appended notice "Finding someone new..."; otherwise (no socket, or `send` throws) no frame and no notice; status and room never change |
| `Client.ChatClient.Unmount` | src/components/ChatUI.jsx:29-31 | the current socket, if any, is closed; pending timers are not cancelled, so that socket's `onclose` still schedules a reconnect that opens a new socket |
| `Scenarios.ReconnectAfterUnmount` | src/components/ChatUI.jsx:27-82 | after unmount closes the open socket, its `onclose` and the reconnect it schedules create a second, connecting socket that becomes current and that nothing closes |
| `Scenarios.MatchChatDisconnect` | src/components/ChatUI.jsx:43-91 | connect, searching, matched, send "hi", receive "yo", partner disconnect: searching with no room, log `[me hi, partner yo, notice]`, one chat frame sent |
| `Scenarios.TypingClearsAreIndependent` | src/components/ChatUI.jsx:61-64 | after two typing frames and one fired clear, the indicator is off while one clear is still pending |
| `Scenarios.BlankInputIsNotSent` | src/components/ChatUI.jsx:85-87 | once matched, a white-space-only input sends nothing, logs nothing and stays in the field |
| `Scenarios.NextWhileConnecting` | src/components/ChatUI.jsx:93-101 | Next pressed while the first socket is still connecting, then a direct `sendTyping` call: both `send` calls throw, no frame is recorded and no notice is logged |
| `Scenarios.CloseWhileMatched` | src/components/ChatUI.jsx:38-82 | a matched socket that errors and closes leaves the status disconnected with the room id kept. The reconnect creates a second socket, and a further `connect` while it opens creates none |

## Left out

- Rendering (src/components/ChatUI.jsx:104-160), the scroll-into-view effect (lines 34-36), src/components/MessageBubble.jsx and src/App.jsx: presentation, apart from the one point in the next line.
- The JSX disables the input and the Send button unless the status is matched (lines 153, 156). This decides when a user can trigger `sendMessage` and `sendTyping`. The same attribute blocks the field's `onChange` (line 149). The model lets `SetInput`, `SendMessage` and `SendTyping` run in every status; the Next button (line 114) is never disabled.
- Backend URL derivation (lines 13-25), including the `https:` to `wss:` scheme mapping: the URL only configures the transport, which is not modelled, so sockets carry no URL.
- JSON parsing and serialisation: frames are the `Frame` datatype and outgoing frames the `OutFrame` datatype. The model does not cover a frame that parses to JSON `null`, where the destructuring on line 50 throws. Payload fields that are not strings are not distinguished. An absent `roomId`, `undefined` and `null` are all `None`.
- A record with no `type`, or a parsed value that is not a record, is shown as a `Data` with an unrecognised `kind`; the handler reacts to these the same way, by ignoring them.
- The WebSocket transport beyond `send`'s throw in the CONNECTING state: the outbox records every `send` call that did not throw. Transmission is not modelled, nor the dropping of data sent while closing or closed.
- Wall-clock delays (1000 ms reconnect, 1200 ms typing clear) and the event loop: timers are counts of pending firings, and they may fire in any order, interleaved with socket events.
- The browser's ordering of socket events is an assumption, stated as method preconditions. `onopen` fires only on a connecting socket, `onmessage` only on an open one, and `onclose` once per socket.
- Client.ChatClient.OnError: over-approximates the browser. Under the WebSocket standard the socket is already CLOSED when `error` fires, so `ws.close()` does nothing, and `close` follows in the same task. The model moves the socket to closing instead and lets other events run before `OnClose`. Closing and closed are both not live, so the `connect` guard answers the same either way.
- React hook semantics: state updates are applied at once rather than batched, and the mount effect is a call to `Connect` after the constructor.
