# Socket.IO chat client — a Dafny model

This project models the browser side of a small Socket.IO chat room
(`public/main.js`): the session controller that keeps the user's name, the
connection flag and the typing-indicator debounce state; the list of chat and
log lines on the page and the way typing indicators are replaced and removed;
the colour hash that picks a username's colour; and the participant-count
wording. Every `socket.emit` is recorded, in order, in the session's `outbox`,
so what the client sends is part of the state that the contracts speak about.

Modules:

- `Wrappers` (`wrappers.dfy`): `Option`, for JavaScript values that may be `undefined`.
- `JsText` (`text.dfy`): `String.prototype.trim`; `cleanInput` as the HTML
  escaping of a text node, with a decoder that reads it back; the UTF-16 code
  units seen by `charCodeAt`; the decimal rendering of an integral Number, with a parser.
- `Colors` (`colors.dfy`): `COLORS`, ToInt32, `<< 5`, the hash fold, JavaScript
  `%`, and `getUsernameColor` as a method with its loop.
- `Messages` (`messages.dfy`): the message list as a sequence of items, with
  `getTypingMessages`, `removeChatTyping`, `addMessageElement`, `log`,
  `addChatMessage` and the participant text as functions, and the lemmas about them.
- `Session` (`session.dfy`): class `ChatSession` with the four session
  variables, the input box, the message list, the outbox and the armed
  debounce timers as fields, and one method per handler.

Time is a parameter: `OnInput(text, now)` records the time of the input and
arms a timer due at `now + 400`; `TimerFire(now)` is the oldest armed timer
firing (the event loop never fires a timer before it is due). The invariant
`Valid()` says, among other things, that while the user is marked typing the
latest armed timer is due one debounce after the last input, so the typing
state cannot get stuck (`LastTimerEndsTyping`).

Behaviours of the code worth noting, which the model keeps:

- `cleanInput` reads back a text node's HTML serialization, which escapes
  `&`, `<`, `>` and U+00A0 only (the "escaping a string" step of the HTML
  Standard's fragment serialization, section 13.3); quotes are kept.
- The Enter key sends "stop typing" and clears `typing` every time a name is
  set, whether or not the user was typing and whether or not a message went out.
- `sendMessage` does not trim: a message of white space only is sent.
- "disconnect" only logs a line; `connected` stays as it was.
- `username` is stored even when it is empty; the model keeps `""` for both
  "undefined" and "empty", since the code only ever tests whether it is truthy.

## Model

| member | source | states |
|---|---|---|
| JsText.SkipLeading | public/main.js:61 | the start of the kept slice: everything before it is trimmable and the character at it is not |
| JsText.SkipTrailing | public/main.js:61 | the end of the kept slice: everything after it is trimmable and the character before it is not |
| JsText.Trim | public/main.js:61 | `trim` keeps one slice of the field: everything cut off before and after it is trimmable, and the slice neither starts nor ends with a trimmable character |
| JsText.TrimEmptyIff | public/main.js:61-64 | the trimmed name is empty exactly when the field holds only white space and line terminators |
| JsText.TrimIdempotent | public/main.js:61 | trimming twice is trimming once |
| JsText.EscapeChar | public/main.js:283-285 | one character is written as itself, or as a reference starting with `&` exactly when it is `&`, U+00A0, `<` or `>` |
| JsText.CleanInput | public/main.js:283-285 | the escaped text has no `<`, `>` or raw U+00A0, is at least as long, and is empty exactly when the input is |
| JsText.DecodeEscapeChar | public/main.js:283-285 | reading one escaped character back gives that character and leaves the rest to be read |
| JsText.CleanInputRoundTrip | public/main.js:283-285 | decoding the escaped text gives back exactly the input |
| JsText.CleanInputInjective | public/main.js:283-285 | two different inputs never escape to the same text |
| JsText.Utf16 | public/main.js:313-314 | a character is one code unit below U+10000 and a surrogate pair above, which encodes it |
| JsText.CodeUnits | public/main.js:313-314 | the code units `charCodeAt` sees are each below 2^16, one or two per character |
| JsText.CodeUnitsOfBmp | public/main.js:313-314 | a name in the Basic Multilingual Plane has one code unit per character, equal to its code point |
| JsText.NatToString | public/main.js:51 | a non-empty string of decimal digits with no leading zero |
| JsText.NumberToString | public/main.js:51 | a non-empty numeral that starts with `-` exactly for negative counts |
| JsText.NatToStringRoundTrip | public/main.js:51 | reading the digits back gives the number |
| JsText.NumberToStringRoundTrip | public/main.js:51 | reading the numeral back gives the integer |
| Colors.ToInt32 | public/main.js:314 | the result is the signed 32-bit integer congruent to the input modulo 2^32, and the input itself when it is one |
| Colors.ShiftLeft5 | public/main.js:314 | `<< 5` yields a signed 32-bit integer congruent to 32 times the input modulo 2^32 (the high bits wrap away), and equal to it when no bits are lost |
| Colors.Step | public/main.js:314 | one loop step is `31 * hash + code` modulo 2^32, and exactly that while `hash << 5` loses no bits |
| Colors.Hash | public/main.js:312-315 | the hash of the code units wraps to the same 32-bit pattern as the exact polynomial `7 * 31^n + u[0] * 31^(n-1) + ... + u[n-1]` |
| Colors.HashBound | public/main.js:312-315 | each code unit moves the hash by at most 2^31 + 2^16 from the seed 7 |
| Colors.HashIsExact | public/main.js:312-315 | for names up to 2^21 code units the hash stays below 2^53, so the Number arithmetic is exact |
| Colors.JsRemainder | public/main.js:317 | `%` keeps the dividend's sign and its magnitude is the magnitude's remainder |
| Colors.ColorIndex | public/main.js:317 | `Math.abs(hash % 12)` is a palette index, namely the hash's magnitude modulo 12 |
| Colors.UsernameColor | public/main.js:310-319 | the colour of a name is a palette entry, the one at the hash's magnitude modulo 12 |
| Colors.GetUsernameColor | public/main.js:310-319 | the loop computes the left fold of the hash step from 7 over the code units, and the colour is always a palette entry |
| Colors.EmptyNameColor | public/main.js:3-16 | the empty name keeps hash 7 and gets `#4ae8c4` |
| Colors.OneLetterNameColor | public/main.js:310-319 | the name "a" hashes to 314 and gets `#f8a700` |
| Messages.TypingMessages | public/main.js:292-296 | only typing indicators of the given user are selected |
| Messages.RemoveTyping | public/main.js:299-303 | no typing indicator of the given user remains |
| Messages.TypingMessagesAppend | public/main.js:292-296 | the selection keeps list order: it distributes over joining two stretches of the list |
| Messages.RemoveTypingAppend | public/main.js:299-303 | the removal keeps every other item in its order: it distributes over joining two stretches |
| Messages.TypingPartition | public/main.js:292-303 | each item is either selected or kept, and when none is selected the list is unchanged |
| Messages.TypingAfterRemove | public/main.js:299-303 | removing one user's indicators leaves every other user's indicators exactly as they were |
| Messages.RemoveTypingKeepsLogs | public/main.js:299-303 | log lines are never removed as typing indicators |
| Messages.AddMessageElement | public/main.js:138-162 | one item is inserted, faded unless `fade` is false, in front when `prepend` is true and at the end by default, and the old items keep their order |
| Messages.TypingAfterInsert | public/main.js:138-162 | after an insertion a user's indicators are the old ones plus the new item when it is one, at the side it was put |
| Messages.Log | public/main.js:100-103 | a log line is added, and the list grows by one |
| Messages.AddChatMessage | public/main.js:110-131 | the list gains one item and loses as many items as the user had typing indicators |
| Messages.AddChatMessageTyping | public/main.js:110-131 | afterwards the user has exactly one indicator if the new item is one and none otherwise, other users' indicators are unchanged, and an item that replaced an indicator is not faded in |
| Messages.AddChatMessageKeepsOneTyping | public/main.js:110-131 | adding a chat item keeps at most one typing indicator per user |
| Messages.LogKeepsOneTyping | public/main.js:100-103 | a log line keeps at most one typing indicator per user |
| Messages.RemoveTypingKeepsOneTyping | public/main.js:299-303 | removal keeps at most one typing indicator per user |
| Messages.TypingThenMessage | public/main.js:232-255 | a "typing" then a "new message" from one user leaves the message alone at the end, unfaded, in place of the indicator |
| Messages.ParticipantsText | public/main.js:46-54 | the text is "there's 1 participant" exactly when the count is 1 |
| Messages.ParticipantsTextRoundTrip | public/main.js:46-54 | the count can be read back from either wording |
| Session.ChatSession.constructor | public/main.js:32-35 | no name, not connected, not typing, no typing time, nothing shown or sent |
| Session.ChatSession.AddMessageElement | public/main.js:138-162 | the list becomes its `addMessageElement` image; nothing else changes |
| Session.ChatSession.Log | public/main.js:100-103 | the list gains the log line; nothing else changes |
| Session.ChatSession.AddChatMessage | public/main.js:110-131 | the list drops the user's indicators and gains the item, unfaded if any was dropped |
| Session.ChatSession.RemoveChatTyping | public/main.js:299-303 | the list loses that user's typing indicators and nothing else |
| Session.ChatSession.AddParticipantsMessage | public/main.js:46-54 | exactly one faded-in log line with the participant text is appended |
| Session.ChatSession.SetUsername | public/main.js:60-73 | the trimmed, escaped name is stored; it is empty exactly when the field is white space; one "add user" with it is sent exactly when it is non-empty |
| Session.ChatSession.SendMessage | public/main.js:79-93 | with a non-empty box and a connection the box is cleared, the escaped untrimmed text is shown as the user's and sent once; otherwise nothing changes |
| Session.ChatSession.EnterKey | public/main.js:173-181 | with a name set: send when possible, then always "stop typing" and `typing` false; without one: submit the name field and leave typing and the list alone |
| Session.ChatSession.OnInput | public/main.js:185-204 | not connected: nothing but the box changes; connected: "typing" is sent only on the first input, the time is recorded and a timer is armed 400 ms later |
| Session.ChatSession.TimerFire | public/main.js:195-202 | "stop typing" is sent and `typing` cleared exactly when typing and 400 ms have passed since the last input; otherwise state and emits are unchanged |
| Session.ChatSession.LastTimerEndsTyping | public/main.js:185-202 | while typing, the last armed timer always ends the typing state when it fires |
| Session.ChatSession.OnLogin | public/main.js:221-229 | connected; the welcome line is prepended and the participant line appended |
| Session.ChatSession.OnNewMessage | public/main.js:232-234 | the message is added through `addChatMessage` and the sender has no typing indicator left |
| Session.ChatSession.OnUserJoined | public/main.js:237-240 | the join line and the participant line are appended |
| Session.ChatSession.OnUserLeft | public/main.js:243-247 | the leave line and participant line are appended and the user's typing indicator is gone, other items kept in order |
| Session.ChatSession.LeaveLinesSurvive | public/main.js:243-247 | removing indicators after two log lines keeps the lines at the end and at most one indicator per user |
| Session.ChatSession.OnTyping | public/main.js:250-255 | an "is typing" indicator is added and the sender has exactly one |
| Session.ChatSession.OnStopTyping | public/main.js:258-260 | the sender's typing indicator is removed and nothing else |
| Session.ChatSession.OnDisconnect | public/main.js:262-264 | a line is logged and `connected` is unchanged |
| Session.ChatSession.OnReconnect | public/main.js:266-271 | a line is logged and "add user" is sent again exactly when a name is set |
| Session.ChatSession.OnReconnectError | public/main.js:273-275 | a line is logged |

## Left out

- Presentation: `fadeIn`/`fadeOut` timing (`FADE_TIME`), `scrollTop`, `focus`, `show`/`hide`, page switching and the CSS colour of a username; an item only records whether it was faded in.
- The asynchronous `fadeOut` before a typing indicator is removed is taken as an immediate removal.
- The Socket.IO transport (`io()`, delivery, reconnection policy, heartbeat): each emit is appended to `outbox`, each inbound event is a method call.
- `setTimeout` and the wall clock: time is the `now` parameter, and a fired timer is the `TimerFire` call; the event loop's ordering of timers is assumed to follow their arming order.
- Click handlers and the focus handling of non-Enter keys (public/main.js:167-171, 209-216): they only move the focus.
- The DOM behind `cleanInput`: it is modelled by the escaping it performs, not by element construction.
- Rendering of message text: the list records the escaped string, which the page inserts with `.text()` and so shows as written (a message `<b>` appears as `&lt;b&gt;`); `JsText.DecodeText` is only the left inverse used to prove `cleanInput` injective, not a model of a browser's HTML parser.
- Lone surrogates: a Dafny `string` holds Unicode scalar values only, so names or messages containing an unpaired UTF-16 surrogate (which a JavaScript string, for instance one received from the server, can hold) are not modelled by `JsText.CodeUnits`, `Colors.UsernameColor` or `Colors.GetUsernameColor`.
- Number precision: the hash is exact for names up to 2^21 code units (`Colors.HashIsExact`); longer names, where doubles round, are not modelled.
- JsText.NumberToString: integral counts only; counts of magnitude 10^21 and above, fractions, NaN and other non-integral payloads are not modelled.
- Malformed server payloads (a missing `username` or `numUsers`): each handler takes its fields as typed parameters.
- The "new message" emit carries escaped text; how other clients display it is the server's and their affair and is not modelled.
