# Chat-room core of evolve_backend, modelled in Dafny

The model covers the chat service of `evolve_backend` and two small helpers of its
search endpoints.

- **`Handler`** (`handler.dfy`) models one WebSocket connection.
  - `process_text_msg` is modelled as a parser and an interpreter of client commands: `/list`, `/join`, `/quit`, `/name`, unknown commands and plain chat.
  - The `chat_ws` event loop is modelled with its heartbeat, its frame handling and its teardown.
  - `notify_update_rooms` is modelled as the expansion into per-member `update_rooms:` system messages.
  - The calls the handler makes on the chat server, and the frames it sends on its own socket, are recorded in an effect log. The `Connection` class holds the mutable `room`, `name` and `last_heartbeat` of each `chat_ws` connection.
- **`Hub`** (`hub.dfy`) models the bookkeeping of the Redis hub:
  - the membership snapshot `ChatServerForHub` and its projection `get_by_session`;
  - how `change_rooms` turns the room script's `{status, msg}` reply into a result;
  - `clean_sessions`;
  - the table of open room subscriptions behind `open_channel` and `close_channel`;
  - the publish/subscribe channel names.
- **`Pagination`** (`pagination.dfy`) models `Pagination::skip` and `Pagination::take` on signed 64-bit integers. `skip`'s multiplication is given both in the checked form, where overflow panics, and in the wrapping form.
- **`User`** (`user.dfy`) models `get_val`, which cleans a JSON field into display text, and the `UserFormatter` built from a search hit.
- **`Strings`** (`strings.dfy`) gives the Rust standard-library string operations the core relies on: `str::trim` (Unicode White_Space), `trim_matches(char)`, `splitn(2, ' ')` and `replace("\\", "")`.
- **`Wrappers`** (`wrappers.dfy`) gives `Option` (with `unwrap_or`) and `Result`.
- **`Seqs`** (`seqs.dfy`) gives the duplicate-freedom predicate and the sequence facts used by the loops that build message and record lists.

Time is an integer count of milliseconds, supplied with every event. JSON bodies are
opaque strings behind their fixed prefixes.

### Behaviour of the code worth knowing

- **Room after a hub call.** `process_text_msg` discards whatever `join_room` and `quit_room` return, so no failure reaches the client. `room` is assigned unconditionally right after each call (`src/ws/handler.rs:274-275`, `294-295`).
- **`skip` at the lowest index.** For `index == i64::MIN`, `checked_sub(1)` fails and `unwrap_or(0)` turns the page into page zero, so `skip` is zero, not negative (`MinimumIndexSkipsNothing`). For every other index of zero or below, a positive size gives a negative offset. With a large enough size, the multiplication itself can overflow.

## Model

| member | source | states |
|---|---|---|
| Handler.Render | src/ws/handler.rs:23-61 | each kind of text the handler sends is its own head (`update_session:`, `update_rooms:`, `message:`, `!!! `) followed by exactly the serialised body, or for a notice by exactly its reason; a relayed chat string is sent as it is |
| Handler.ClassifyRender | src/ws/handler.rs:23-61 | a client that reads the kind off the head and strips that head gets back the kind and exactly the body (or a notice's reason) of every text the handler produces, although `update_rooms:` and `update_session:` share `update_` |
| Handler.Parse | src/ws/handler.rs:259-267 | the text is a chat line exactly when, once trimmed, it does not start with `/`; a chat line or an unknown command carries the trimmed text |
| Handler.ParseTrimmed | src/ws/handler.rs:263-267 | on trimmed text: a chat line exactly when it does not start with `/`; a chat line or an unknown command carries the text itself |
| Handler.Dispatch | src/ws/handler.rs:267-327 | the keyword match never yields a chat line; it yields the list command exactly for `/list`, an unknown command exactly for a keyword that is none of the four, and an unknown command carries the whole line |
| Handler.ParseKeepsTheText | src/ws/handler.rs:259-267 | the text is trimmed first; it is a chat line exactly when the trimmed text does not start with `/`; `/list` is chosen by the keyword before the first space alone; every other command is the trimmed text read back |
| Handler.DispatchKeepsTheText | src/ws/handler.rs:267-327 | the keyword match never yields a chat line, and it hands the line on unchanged to the command it picks |
| Handler.ParseLine | src/ws/handler.rs:259-331 | every command a client can send parses back from its canonical text (the keyword, then a space and the argument) |
| Handler.ParseListLine | src/ws/handler.rs:268 | `/list` parses to the list command |
| Handler.DispatchKeywords | src/ws/handler.rs:267-307 | each of the four keywords selects its own command and keeps the argument |
| Handler.ParseJoinLine | src/ws/handler.rs:264-272 | `/join` followed by an optional argument parses to a join that carries exactly that argument |
| Handler.ParseQuitLine | src/ws/handler.rs:264-285 | the same for `/quit` |
| Handler.ParseNameLine | src/ws/handler.rs:264-307 | the same for `/name` |
| Handler.ParseUnknownLine | src/ws/handler.rs:322-327 | a trimmed `/word` line whose keyword is none of the four parses to an unknown command carrying the whole line |
| Handler.ParseChatLine | src/ws/handler.rs:329-330 | a trimmed line that does not start with `/` parses to a chat line carrying itself |
| Handler.KeywordLineTrimmed | src/ws/handler.rs:260 | a keyword line whose argument does not end in whitespace is unchanged by the trim |
| Handler.KeywordLineSplits | src/ws/handler.rs:264-267 | the split at the first space returns the keyword and the argument that were joined |
| Handler.ParseKeyword | src/ws/handler.rs:260-267 | a keyword line parses to whatever its keyword dispatches to |
| Handler.ParseTrimmedCommand | src/ws/handler.rs:263-267 | a trimmed line starting with `/` is dispatched on its split at the first space |
| Handler.ParseIgnoresSurroundingWhitespace | src/ws/handler.rs:260 | trimming the text beforehand changes nothing |
| Handler.ParsedArgumentsNonEmpty | src/ws/handler.rs:260-264 | an argument that the split hands to `/join`, `/quit` or `/name` is never empty and never ends in whitespace |
| Handler.DispatchPassesArgument | src/ws/handler.rs:272-308 | join, quit and rename carry the argument split off the line |
| Handler.Interpret | src/ws/handler.rs:267-331 | every command has at least one effect; the name changes only under `/name` with that name as argument; the room changes only under `/join` of that room or under a `/quit` that returns to the default room |
| Handler.ProcessText | src/ws/handler.rs:251-331 | every text has at least one effect, and only a text that starts with `/` once trimmed can change the room or the name |
| Handler.InterpretChangesOnlyWhatItNames | src/ws/handler.rs:268-331 | only `/name n` changes the name; only `/join r` and a `/quit` of a room other than the default change the room; every `join_room`, `quit_room` or `change_name` call is for this session and names the command's own argument |
| Handler.ChatIsPublished | src/ws/handler.rs:329-330 | trimmed text not starting with `/` is sent, trimmed, to the current room under the current name, and room and name stay |
| Handler.MissingArgumentIsRefused | src/ws/handler.rs:280-319 | `/join`, `/quit` or `/name` without an argument only sends the matching `!!! … is required` text and changes nothing |
| Handler.JoinMovesToRoom | src/ws/handler.rs:272-278 | `/join r` joins `r`, sets the room to `r`, keeps the name, reports the new session state and notifies exactly room `r` |
| Handler.QuitReturnsToDefault | src/ws/handler.rs:285-300 | `/quit` of the default room only sends the refusal and issues no `quit_room`; `/quit r` of any other room quits it, resets the room to the default whatever it was, and notifies `r` and the session itself |
| Handler.RenameNotifiesAllRooms | src/ws/handler.rs:307-316 | `/name n` renames the session, keeps the room, and notifies every room of the session (no target room) |
| Handler.UnknownAndListChangeNothing | src/ws/handler.rs:268-327 | an unknown keyword echoes `!!! unknown command: ` and the whole trimmed text; `/list` asks only for the session's own view; neither changes state |
| Handler.Step | src/ws/handler.rs:165-238 | only Ping and Pong refresh the heartbeat; a tick ends the loop exactly when the silence exceeds `CLIENT_TIMEOUT` (strictly) and otherwise pings with `b"ping"`; a Ping is answered by a Pong echoing its payload; a Close frame ends the loop with the peer's reason; every other way out carries no reason; a text frame's room, name and effects are exactly those of `process_text_msg`, and only a text frame can change room or name; a Pong or Binary frame sends nothing; a relayed chat string is sent to the client unchanged |
| Handler.Run | src/ws/handler.rs:152-239 | the loop consumes no more events than it is given, and it consumes all of them when none ends it |
| Handler.RunFrom | src/ws/handler.rs:152-239 | on a non-empty run the loop consumes at least the first event, no more than it is given, and all of them when none ends it |
| Handler.SilentClientIsDisconnected | src/ws/handler.rs:225-232 | without Ping or Pong, the first tick that finds the client silent past the timeout ends the loop, at the latest |
| Handler.StopReasonComesFromClose | src/ws/handler.rs:195-210 | a close reason at the end of the loop is that of the Close frame that ended it |
| Handler.NotifySends | src/ws/handler.rs:65-95 | every `update_rooms:` message goes to a member of a targeted room that exists in the snapshot, and with a target room only to that room |
| Handler.NotifiedMembersSeeTheRoom | src/ws/handler.rs:80-89 | on a consistent snapshot every notified member finds the room, and itself in it, in the view it is sent |
| Handler.RenameReachesCoMembers | src/ws/handler.rs:65-77 | a rename's notification reaches a session exactly when it shares a room with the renamed one |
| Handler.TargetRooms | src/ws/handler.rs:67-77 | with a target room the rooms notified are just that room; without one they are exactly the session's rooms in the inverse index |
| Handler.CollectTargets | src/ws/handler.rs:67-77 | the target rooms are the given room, or every room of the session in the inverse index (none for an unknown session), each once |
| Handler.NotifyRooms | src/ws/handler.rs:79-94 | the loops send exactly the messages of `NotifySends`, each once |
| Handler.NotifyMembers | src/ws/handler.rs:80-92 | every member of an existing target room is sent its own view of the snapshot, once |
| Handler.Farewell | src/ws/handler.rs:241-248 | the teardown disconnects, notifies each room the chat server reports, in order, and closes with the loop's reason |
| Handler.Departures | src/ws/handler.rs:243-245 | one notification per departed room, in order |
| Handler.Greeting | src/ws/handler.rs:137-150 | the greeting starts with the `connect` call, reports the session in the default room under its given name, issues no `join_room`, `quit_room` or `change_name`, and ends by notifying the default room, the only room it notifies |
| Handler.Connection.constructor | src/ws/handler.rs:137-150 | a session starts in the default room under its given name, with the heartbeat at the start time, after connecting, reporting its state and notifying the default room |
| Handler.Connection.ProcessTextMsg | src/ws/handler.rs:251-332 | writes through `room` and `name` and logs the calls exactly as the parsed command prescribes |
| Handler.Connection.Execute | src/ws/handler.rs:267-331 | the command half of `process_text_msg`, agreeing with `Interpret` on room, name and effects |
| Handler.Connection.HandleEvent | src/ws/handler.rs:165-238 | one iteration changes the state and the log exactly as `Step` says |
| Handler.Connection.Advance | src/ws/handler.rs:152-239 | one iteration on the k-th input appends its effects to the log and takes the run over the remaining inputs one event further, or ends it there |
| Handler.Connection.Loop | src/ws/handler.rs:152-239 | the loop ends in the state, with the log, the exit and the number of consumed events that `Run` gives |
| Handler.Connection.Teardown | src/ws/handler.rs:241-248 | appends exactly the farewell and leaves room, name and heartbeat alone |
| Handler.Session | src/ws/handler.rs:130-249 | a session's log starts with the greeting and, when the loop ended, finishes with the close frame carrying the loop's reason |
| Handler.ChatWs | src/ws/handler.rs:130-249 | the imperative task produces exactly the log of `Session` and the loop's exit |
| Hub.DefaultRoomChangeType | src/ws/hub.rs:26-30 | the default change type is `Add` |
| Hub.ChangeRooms | src/ws/hub.rs:194-205 | success exactly when the script's status is zero; a nonzero status yields a business error carrying `msg`; store and decoding errors pass through |
| Hub.RoomsOf | src/ws/handler.rs:67-77 | the rooms of a session are exactly those under it in the inverse index, none for an unknown session |
| Hub.GetBySession | src/ws/hub.rs:78-97 | the keys are exactly the session's rooms that exist in `rooms` (none for an unknown session); each inner map has exactly the room's members as keys, each mapped to its display name, which must exist |
| Hub.GetBySessionSeesSelf | src/ws/hub.rs:78-97 | on a consistent snapshot a session's view holds exactly the rooms it is a member of, and shows the session itself under its own name in each |
| Hub.CleanSessions | src/ws/hub.rs:213-226 | one `Del` record with no name per (room, session) pair of the local map, no other and none twice; it stops at the first failing record, where `unwrap` panics |
| Hub.Removal | src/ws/hub.rs:216-221 | the record for a pair is a `Del` of that session from that room, with no name |
| Hub.ChannelName | src/ws/hub.rs:124-126 | a channel name is the room, an underscore and the kind, so both can be read back given the room's length |
| Hub.ClientChannel | src/ws/hub.rs:167-174 | a room's client channel is the room followed by `_client_message` |
| Hub.SystemChannel | src/ws/hub.rs:176-183 | a room's system channel is the room followed by `_system_message` |
| Hub.ChannelNameInjective | src/ws/hub.rs:124-126 | `room_kind` names with kinds of one length coincide only for the same room and kind |
| Hub.ChannelsDistinct | src/ws/hub.rs:32-33 | client channels of different rooms differ, and so do system channels; no client channel is a system channel |
| Hub.Subscribe | src/ws/hub.rs:119-126 | a room's listener subscribes to `<room>_system_message` and `<room>_client_message`, two distinct channels |
| Hub.Deliver | src/ws/hub.rs:131-141 | a listener forwards a publication unchanged, and forwards nothing from a channel it did not subscribe to |
| Hub.PublishClientMsg | src/ws/hub.rs:167-174 | a client message is published, unchanged, on `<room>_client_message` of its own room |
| Hub.PublishSystemMsg | src/ws/hub.rs:176-183 | a system message is published, unchanged, on `<room>_system_message` of its own room |
| Hub.PublishReachesExactlyItsRoom | src/ws/hub.rs:167-183 | a message published for a room is delivered, unchanged, by that room's subscription and by no other |
| Hub.Opened | src/ws/hub.rs:228-237 | opening adds the room if absent and leaves every existing entry unchanged |
| Hub.Closed | src/ws/hub.rs:239-245 | closing removes only that room's entry |
| Hub.OpenCloseIdempotent | src/ws/hub.rs:228-245 | opening twice is opening once, closing twice is closing once, closing an absent room does nothing |
| Hub.OpenClosePreserveValid | src/ws/hub.rs:228-245 | both keep every entry the subscription of its own room |
| Hub.ChannelTable.constructor | src/ws/hub.rs:152-159 | a new hub has no open channel, so every entry is trivially its own room's subscription |
| Hub.ChannelTable.OpenChannel | src/ws/hub.rs:228-237 | the table afterwards is `Opened` of the table before; the room then has an entry, and every entry stays its own room's subscription |
| Hub.ChannelTable.CloseChannel | src/ws/hub.rs:239-245 | the table afterwards is `Closed` of the table before, and a listener is signalled exactly when the room had one; the room then has no entry, and every entry stays its own room's subscription |
| Wrappers.Option.UnwrapOr | src/model/common.rs:26 | `unwrap_or` gives the held value, or the default when there is none |
| Pagination.CheckedSub | src/model/common.rs:26 | `checked_sub` gives the difference exactly when it fits in 64 bits |
| Pagination.CheckedMul | src/model/common.rs:26 | the product with overflow checks is defined exactly when it fits in 64 bits |
| Pagination.Wrap | src/model/common.rs:26 | the two's-complement truncation agrees with its input modulo 2^64, and is the input itself when it fits |
| Pagination.WrappingMul | src/model/common.rs:26 | the unchecked product is the true product modulo 2^64, and equals it when it fits |
| Pagination.Take | src/model/common.rs:29-31 | `take` is the size when it is non-negative and zero otherwise, so never negative |
| Pagination.Skip | src/model/common.rs:25-27 | above `i64::MIN`, `skip` panics exactly when `(index - 1) * size` does not fit in 64 bits and is that product otherwise; at `i64::MIN` it is zero |
| Pagination.SkipWrapping | src/model/common.rs:25-27 | without overflow checks, `skip` is `(index - 1) * size` modulo 2^64, that product itself when it fits, and zero at `i64::MIN` |
| Pagination.SkipBuildsAgree | src/model/common.rs:25-27 | checked and wrapping builds agree wherever the checked one does not panic; above `i64::MIN` it panics exactly when `(index - 1) * size` does not fit |
| Pagination.SkipIsOffsetOfPreviousPages | src/model/common.rs:25-27 | above `i64::MIN`, `skip` is `(index - 1) * size` when that fits |
| Pagination.FirstPageSkipsNothing | src/model/common.rs:25-27 | page 1 skips nothing |
| Pagination.MinimumIndexSkipsNothing | src/model/common.rs:25-27 | an index of `i64::MIN` skips nothing, whatever the size |
| Pagination.NonPositiveIndexSkipsBackwards | src/model/common.rs:25-27 | an index of zero or below (other than `i64::MIN`) with a positive size gives a negative offset, or overflows exactly when the true offset is below `i64::MIN` |
| Pagination.PagesAreContiguous | src/model/common.rs:25-31 | for positive indices and non-negative sizes, the next page starts where this one ends |
| User.Clean | src/model/user.rs:61-68 | `null` becomes empty; any other value loses its surrounding quotes and every backslash and never grows |
| User.GetVal | src/model/user.rs:59-72 | a missing key or a `null` gives the empty string; the result never holds a backslash and is never longer than the rendered value |
| User.CleanStripsAllQuotes | src/model/user.rs:65-67 | without backslashes the result is the rendered text with every leading and trailing quote stripped, so it neither starts nor ends with a quote |
| User.PlainStringRoundTrip | src/model/user.rs:65-68 | a JSON string that needs no escape (no quote, no backslash, no control character) comes back exactly |
| User.TrailingQuoteIsLost | src/model/user.rs:65-68 | a string value whose only quote is its last character, and which needs no other escape, comes back without that quote |
| User.FromMap | src/model/user.rs:75-88 | each of the eight fields is `get_val` of its own key, `type` for the kind and the snake-case keys for the dates |
| User.FromMapReadsOnlyItsKeys | src/model/user.rs:75-88 | the formatter depends on the eight keys it reads and on nothing else |
| User.FromMapFieldsAreClean | src/model/user.rs:75-88 | no field holds a backslash, and an empty object gives eight empty fields |
| Strings.TrimStartMatches | src/model/user.rs:66 | the start trim keeps a suffix that does not start with a matching character |
| Strings.TrimEndMatches | src/model/user.rs:66 | the end trim keeps a prefix that does not end with a matching character |
| Strings.TrimStartDropsOnlyMatches | src/model/user.rs:66 | everything the start trim drops matches the pattern |
| Strings.TrimEndDropsOnlyMatches | src/model/user.rs:66 | everything the end trim drops matches the pattern |
| Strings.TrimMatches | src/model/user.rs:66 | `trim_matches` never lengthens, and the result neither starts nor ends with a match |
| Strings.TrimMatchesKeepsMiddle | src/model/user.rs:66 | `trim_matches` keeps one contiguous piece of its input and drops only matching characters on either side |
| Strings.IsWhitespace | src/ws/handler.rs:260 | among ASCII characters exactly tab, line feed, vertical tab, form feed, carriage return and space count as whitespace for `trim` |
| Strings.StartsWith | src/ws/handler.rs:263 | `starts_with` holds exactly when the text is the prefix followed by the rest of the text |
| Strings.Trim | src/ws/handler.rs:260 | `trim` never lengthens, and the result neither starts nor ends with whitespace |
| Strings.TrimMatchesIdempotent | src/ws/handler.rs:260 | trimming twice is trimming once |
| Strings.TrimMatchesFixed | src/ws/handler.rs:260 | a string with no match at either end is left as it is |
| Strings.TrimMatchesUnwraps | src/model/user.rs:66 | trimming `c` off `c s c` where `s` holds no `c` gives `s` |
| Strings.TrimMatchesStopsAtOther | src/model/user.rs:66 | trimming `c` removes every trailing `c`, not only one |
| Strings.SplitOnce | src/ws/handler.rs:264-267 | the head holds no separator; without a rest it is the whole text, with a rest the text is head, separator, rest |
| Strings.SplitOnceUnique | src/ws/handler.rs:264-267 | the split happens at the first separator, whatever follows |
| Strings.SplitOnceNoSeparator | src/ws/handler.rs:264-267 | a text without the separator is returned whole, with no rest |
| Strings.RemoveAll | src/model/user.rs:67 | every backslash is deleted and every other character is kept, with its count |
| Strings.RemoveAllAppend | src/model/user.rs:67 | the deletion acts on each part of a concatenation on its own |

## Left out

- Redis itself is not modelled: `evalsha`, `publish`, `subscribe`, `get` and the Lua room script. The script's reply to each record is a parameter of `Hub.CleanSessions` and the argument of `Hub.ChangeRooms`; `get_rooms` is the snapshot passed to `Handler.NotifyRooms`.
- The listener task spawned by `RedisHub::subscribe`, its close/close-done handshake and the `Mutex` around the table are concurrency. `Hub.ChannelTable` keeps only the table, and each subscription is the pair of channel names it listens on.
- `ChatServer`/`ChatServerHandle` (`src/ws/server.rs`) is not part of this model. Its calls are effects in the log, and the rooms `disconnect` returns are an input of the teardown. `DEFAULT_ROOM` is declared in that file; the model fixes it as the constant `Handler.DEFAULT_ROOM` with the value `"main"`.
- Serialisation and generated values are opaque: `serde_json`, the message id from `uuid` and the time from `chrono`. Only the fixed prefixes are modelled.
- `Value::to_string` is opaque. `User.Value` carries the rendered text of a non-null value as an input.
- `Instant` and `tokio::time::interval` are not modelled. Each event carries its clock reading, and ticks are events, so their 5-second schedule is not modelled.
- The order in which the hash maps and sets are iterated is left open. `Hub.CleanSessions`, `Handler.CollectTargets` and `Handler.NotifyMembers` pick elements nondeterministically.
- The `log::warn!`, `log::error!` and `log::info!` calls (on a binary frame, a stream error and a heartbeat timeout, `src/ws/handler.rs:190-229`) only write to the process log, and are left out.
- Panics from `unwrap` on a failed socket write are not modelled, nor is the `unreachable!` branch taken when every relay sender is gone. A write is an effect that always succeeds, and the relay is an event source that never closes.
- The panic of `clean_sessions` is modelled as stopping with `panicked` set.
- In the command interpreter and the session log, `notify_update_rooms` and `notify_update_rooms_to_self` are single effects. Their expansion into messages is `Handler.NotifyRooms`, over a given snapshot. The content of the self-view that `get_rooms_by_session_id` returns lies in `server.rs` and is not modelled.
- Pagination.NonPositiveIndexSkipsBackwards: the result is not negative for an index of `i64::MIN`, because that page counts as page zero; `MinimumIndexSkipsNothing` states that case.
- HTTP controllers, the WebSocket upgrade, the OpenAPI docs, the search-engine client, bootstrap and configuration are framework wrappers or I/O, and are not modelled.
