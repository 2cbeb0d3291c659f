# proxy-telegram-bot, modelled in Dafny

proxy-telegram-bot relays Telegram messages. Every ordinary text message a chat sends
is forwarded to all *listeners* except the sender. Chats become listeners with
`/listening <activation code>`. Listeners can mute a sender with `/ignore <chat id>`.
An optional spam control drops a chat's messages that come too soon after its last
accepted one.

This project models the two pieces of sequential logic behind that:

- **The persisted id sets** (`IdsSet` in src/main.rs and `SimpleStorage` in
  src/simple_storage.rs). A set of 64-bit chat ids lives in memory next to a text
  file holding one decimal id per line. The file is read only by `sync_mem_from_file`
  and written only by `sync_file_from_mem`.
- **The per-message decision procedure**: the handler that `start_bot` passes to
  `teloxide::repl`.

Files and modules:

- `wrappers.dfy` (`Wrappers`): `Option`.
- `text.dfy` (`Text`): the parts of Rust's standard library the core relies on, written
  as functions:
  - `i64` as the subset type `Int64`;
  - integer `to_string`;
  - `str::parse::<i64>`: an optional sign, then decimal digits, within the 64-bit range;
  - `str::lines`, `str::trim` (Unicode White_Space) and `str::strip_prefix`.
- `ids_set.dfy` (`IdsSet`): the text codec.
  - `Decoded` specifies `From<String>`.
  - `Decode` is its loop.
  - `Encode` is the `Into<String>` loop. It walks the set in an arbitrary order, as
    `HashSet` iteration does.
  - `Encodes(s, ids)` says that `s` is the encoding of `ids` for some order.
- `simple_storage.dfy` (`SimpleStorage`): the class `Storage`.
  - It has fields `mem` (the set) and `file` (the file's contents).
  - Two flags record whether the set's `RwLock` or the file's `Mutex` is poisoned. A
    poisoned lock fails every later acquisition.
  - The caller picks which I/O call of a sync fails, through a `ReadIo` or `WriteIo`
    argument.
  - A clone of a `SimpleStorage` shares its state, so a clone is the same `Storage`
    reference. The `Bot` holds the very objects it was given.
- `relay.dfy` (`Relay`): the handler.
  - `Config`, `Message` and `Action` are data types. An `Action` is either
    `Reply(text)` or `Send(target, text)`.
  - `Decide` is the decision as a function of a `Snapshot` of the state. It returns a
    `Plan`: the chats to forward to, the forwarded text, the reply, the two sets
    afterwards, which stores are saved, and whether the date is recorded.
  - `Bot.Handle` carries the decision out step by step on the stores and the
    date table. It returns the emitted actions, and its contract ties everything it
    does to `Decide`.

The model follows the code as written, including three behaviours that may look
unintended:

- `/listening` replies are swapped. Removing the sender replies with
  `add_listener`; adding the sender replies with `remove_listener`.
- A listener's `/ignore` saves the ignored store even when the argument does not
  parse.
- `/start`, a listener's `/ignore` and a correct-code `/listening` never record the
  message date.

## Model

| member | source | states |
|---|---|---|
| Text.ShowNat | src/main.rs:268 | the decimal digits of a natural number are non-empty, all digits, without a leading zero, and denote that number |
| Text.ShowInt | src/main.rs:268 | an integer's text is non-empty, starts with `-` exactly when the number is negative, and contains no line feed |
| Text.ParseI64 | src/main.rs:254 | a successful `parse::<i64>` needs a non-empty string, and yields a negative value only after a leading `-` |
| Text.ParseShow | src/main.rs:254-268 | parsing the text of any 64-bit integer gives that integer back |
| Text.ShowInjective | src/main.rs:264-271 | distinct ids are written as distinct lines |
| Text.NewlineIndex | src/main.rs:250 | the index found is the first line feed, or the length when there is none |
| Text.Lines | src/main.rs:250 | no line that `lines()` yields contains a line feed |
| Text.TerminatedOfLines | src/main.rs:250 | joining the lines back, each followed by a line feed, gives the text back, with a final line feed added when it had none |
| Text.LinesOfTerminated | src/main.rs:250-269 | splitting text written as line-feed-terminated lines yields exactly those lines |
| Text.TerminatedSnoc | src/main.rs:266-269 | appending one more line and its line feed extends the written text by exactly that |
| Text.IsWhitespace | src/main.rs:144 | defines `char::is_whitespace`, the Unicode White_Space characters that `trim` drops here and at src/main.rs:164 |
| Text.TrimStart | src/main.rs:144 | the result is a suffix of the input; everything dropped is whitespace; the result does not start with whitespace |
| Text.TrimEnd | src/main.rs:144 | the result is a prefix of the input; everything dropped is whitespace; the result does not end with whitespace |
| Text.Trim | src/main.rs:144 | the trimmed argument is a contiguous part of the input with only whitespace around it, and neither starts nor ends with whitespace |
| Text.TrimNoop | src/main.rs:164 | an argument without surrounding whitespace is its own trim |
| Text.StripPrefix | src/main.rs:140-163 | the result is `Some(rest)` with `s == p + rest` exactly when `s` starts with `p`, and `None` exactly when no such rest exists |
| IdsSet.Default | src/main.rs:242-246 | the default id set has no members |
| IdsSet.Toggled | src/main.rs:146-151 | a toggle flips the membership of the given id and leaves every other id unchanged |
| IdsSet.ToggleTwice | src/main.rs:146-151 | toggling the same id twice restores the set |
| IdsSet.ParsedIdsMembers | src/main.rs:252-258 | the loop's set contains an id exactly when some line processed so far parses to it |
| IdsSet.DecodedMembers | src/main.rs:248-261 | decoding yields exactly the values of the lines that parse as `i64`; blank and malformed lines contribute nothing, and repeated lines collapse |
| IdsSet.Decoded | src/main.rs:248-262 | defines what `From<String>` makes of a text: the ids of its lines that parse as `i64`, taken line by line |
| IdsSet.Decode | src/main.rs:248-262 | the decoding loop computes `Decoded` of its input |
| IdsSet.EncodeLines | src/main.rs:264-271 | the encoding of an iteration order has one line per id, in that order, showing that id |
| IdsSet.EncodeLinesDistinct | src/main.rs:264-271 | when the order has no repeats, the encoding's lines are pairwise distinct, so each member appears once |
| IdsSet.RoundTrip | src/main.rs:248-271 | decoding the encoding of a set, in any iteration order, gives the set back |
| IdsSet.EncodesDecodes | src/main.rs:248-271 | any text that encodes a set decodes to that set |
| IdsSet.DefaultText | src/main.rs:242-271 | the default set is written as the empty text, and the empty text reads back as the default set |
| IdsSet.EncodeSeq | src/main.rs:264-271 | defines what `Into<String>` writes for one iteration order: each id's decimal text followed by a line feed, in that order |
| IdsSet.Encodes | src/main.rs:264-271 | defines a text as an encoding of a set when it is `EncodeSeq` of some repetition-free order of exactly its members |
| IdsSet.EncodingsSameLines | src/main.rs:264-271 | two encodings of the same set have the same lines, each exactly once, so they differ at most in line order |
| IdsSet.Encode | src/main.rs:264-272 | the encoding loop writes each member once, each followed by a line feed, in some iteration order, and its output decodes to the set |
| SimpleStorage.Saved | src/simple_storage.rs:74-94 | defines the file after a save: unchanged when a lock is poisoned or the seek or `set_len` fails, empty when `write_all` fails, and an encoding of the set once written |
| SimpleStorage.Storage.constructor | src/simple_storage.rs:29-34 | a new store holds the default (empty) set and the given file unchanged, with neither lock poisoned |
| SimpleStorage.Storage.MemStorage | src/simple_storage.rs:51-54 | reading the set succeeds exactly when its lock is not poisoned, and then yields the current set |
| SimpleStorage.Storage.MutableMemStorage | src/simple_storage.rs:47-50 | a write returns the set it saw and applies the update, or fails and changes nothing when the lock is poisoned; the file is never touched |
| SimpleStorage.Storage.SyncMemFromFile | src/simple_storage.rs:55-73 | a poisoned file lock gives `PoisonError`; a failing seek, read or flush gives `IoError`; then a poisoned set lock gives `PoisonError`; only success replaces the set with the decoded file, and the file never changes |
| SimpleStorage.Storage.SyncFileFromMem | src/simple_storage.rs:74-94 | either poisoned lock gives `PoisonError`; any failing I/O call gives `IoError`; the file is untouched before truncation, empty after a failed write, and an encoding of the set once written; the set never changes |
| SimpleStorage.SaveThenLoad | src/simple_storage.rs:55-94 | a successful save followed by a successful load leaves the set as it was, with the file an encoding of it |
| SimpleStorage.LoadTwice | src/simple_storage.rs:55-73 | a second load gives the same outcome and the same set as the first, and the file is unchanged |
| SimpleStorage.SaveTwice | src/simple_storage.rs:74-94 | a second save gives the same outcome as the first; both succeed exactly when neither lock is poisoned, and then the first and second files both encode the unchanged set, decode to it, and hold the same lines |
| SimpleStorage.RestartKeepsIds | src/simple_storage.rs:29-94 | saving {10, -5, 42}, then loading the file into a fresh store, gives {10, -5, 42} |
| Relay.Classify | src/main.rs:140-163 | a text is `/start` exactly when it begins with "/start"; the `/ignore` and `/listening` arguments are what follows the prefix; plain text begins with none of the three |
| Relay.ForwardText | src/main.rs:192-206 | defines the forwarded text: first name, last name or "-", username or user id, and chat id, or only the chat id for an unknown sender, then a blank line and the message |
| Relay.SendAll | src/main.rs:187-208 | defines the sends of a broadcast: one send of the text to each chat of an order, in that order, as many as the order has |
| Relay.ForwardTextEnds | src/main.rs:192-206 | every forwarded text ends with "(Chat ID: <sender chat>)", a blank line and the original text |
| Relay.SendAllOnce | src/main.rs:187-208 | walking a repetition-free order sends exactly one message to each chat in it and none to any other chat |
| Relay.DeliveredOnce | src/main.rs:186-213 | a message's actions reach each forwarded-to chat exactly once and no other chat, and every send carries the forwarded text |
| Relay.LastDate | src/main.rs:108-111 | defines the last accepted date as the handler reads it: a poisoned date lock reads as no date |
| Relay.IsListening | src/main.rs:131-134 | defines listener membership as the handler reads it: a poisoned listeners lock reads as not a member |
| Relay.IsIgnored | src/main.rs:135-138 | defines ignored membership as the handler reads it: a poisoned ignored lock reads as not a member |
| Relay.Throttled | src/main.rs:106-124 | defines the spam gate: spam control is on, the chat has a readable last date, and that date plus the delay is not before the message date |
| Relay.IgnoreCommand | src/main.rs:143-158 | defines a listener's `/ignore`: toggle the trimmed argument's id with `remove_ignore`/`add_ignore`, or keep the set with `error_ignore`, always saving the ignored store |
| Relay.ListeningCommand | src/main.rs:164-176 | defines a correct-code `/listening`: toggle the sender with the swapped replies, or keep the set with `error_listener`, always saving the listeners store |
| Relay.PlainText | src/main.rs:181-225 | defines ordinary text: forward to every listener but the sender and the after-message reply, or only the ignored-sender reply, recording the date either way |
| Relay.DecideText | src/main.rs:139-226 | defines the decision for text that passed the spam gate, by the `/start`, `/ignore`, `/listening` prefix order |
| Relay.Decide | src/main.rs:104-237 | defines the decision for one message: the spam gate first, then text or the non-text reply with the date recorded |
| Relay.SpamGate | src/main.rs:106-124 | a throttled message gets only the `delayed_message` reply; nothing is forwarded, changed, saved or recorded |
| Relay.ThrottleBoundary | src/main.rs:112-118 | with last date `t` and delay `d`, date `t + d` is throttled and `t + d + 1` is not; a chat with no recorded date is never throttled |
| Relay.DateRecorded | src/main.rs:125-234 | the date is recorded exactly for a non-listener's `/ignore`, a wrong-code `/listening`, ordinary text (ignored or not) and non-text messages; never when throttled, for `/start`, for a listener's `/ignore`, or for a correct-code `/listening` |
| Relay.IgnoreFromNonListener | src/main.rs:142-162 | `/ignore` from a non-listener replies `command_not_allowed`, changes no set, saves nothing and records the date |
| Relay.IgnoreFromListener | src/main.rs:143-158 | a listener's `/ignore` toggles the parsed id, replying `remove_ignore` on removal and `add_ignore` on insertion; a parse error or a poisoned lock keeps the set and replies `error_ignore`; the ignored store is saved in every case and no date is recorded |
| Relay.ListeningCommandEffect | src/main.rs:163-180 | with the activation code, the sender's membership is toggled and the listeners store saved without recording the date, replying `add_listener` on removal and `remove_listener` on insertion, or `error_listener` with no change when the lock is poisoned; any other argument replies `command_not_allowed` and records the date |
| Relay.ListeningTwice | src/main.rs:163-176 | sending the activation command twice first adds the sender (reply `remove_listener`), then removes them again (reply `add_listener`) |
| Relay.IgnoredNeverForwarded | src/main.rs:181-225 | a message from an ignored sender is never forwarded, whatever the listeners are |
| Relay.NoSelfForward | src/main.rs:187-190 | no sender is ever among the recipients of their own message |
| Relay.PlainForwarded | src/main.rs:181-217 | ordinary text from a sender who is not ignored goes to every listener but the sender, as the forwarded text, with the optional after-message reply, and records the date |
| Relay.HelloScenario | src/main.rs:181-217 | with listeners {100} and no spam control, "hello" from chat 200 is forwarded to chat 100 only and records the date |
| Relay.Broadcast | src/main.rs:182-210 | the broadcast loop sends the forwarded text once to each listener other than the sender, in the snapshot's iteration order |
| Relay.Bot.constructor | src/main.rs:87-90 | set-up loads both stores from their files, keeping each set when its load fails, and starts with no recorded dates |
| Relay.Bot.ClaimMessageDate | src/main.rs:125-130 | recording sets the chat's last date to the message date, unless the date lock is poisoned |
| Relay.Bot.Handle | src/main.rs:104-237 | handling a message carries out `Decide` on the state as it found it: the sets, the saved files, the date table and the emitted actions; the two stores stay distinct |
| Relay.Bot.HandleText | src/main.rs:139-226 | a text message that passed the spam gate is carried out as its prefix classification decides |
| Relay.Bot.HandleIgnore | src/main.rs:142-162 | `/ignore` is carried out as `IgnoreCommand` for a listener and as a `command_not_allowed` refusal otherwise |
| Relay.Bot.HandleListening | src/main.rs:163-180 | `/listening` is carried out as `ListeningCommand` with the right code and as a `command_not_allowed` refusal otherwise |
| Relay.Bot.HandlePlain | src/main.rs:181-225 | ordinary text is carried out as `PlainText`: a broadcast and the after-message reply, or only the ignored-sender reply |

## Left out

- Process bootstrap is not modelled: `main` (configuration loading, opening the files, `unwrap` panics), logging and building the bot client. This is I/O and configuration plumbing.
- The transport and async/await are not modelled. Replies and sends become the returned `Action` list, and every reply is assumed to succeed. So the early return taken when a reply fails (for example before the date is recorded) is not modelled, and neither are the ignored send errors of the broadcast.
- Concurrency is not modelled: `Arc`, the locks themselves, and the race between the spam check and the date record. A lock appears only as a "poisoned" flag. A poisoned read counts as not found; a poisoned write gives the `error_*` reply.
- The `token` field is carried in `Config` but nothing in the core uses it.
- `SimpleStorage` is generic over its value type `V` in the source. The model fixes `V` to the id set, the only instantiation the program uses.
- Relay.Bot.Handle: the spam gate uses mathematical integers. It does not model the `as i32` cast of the configured delay, nor a possible `i32` overflow of `last_message_date + delay`. Message dates and user ids are unbounded integers rather than `i32`.
- Text.Lines: it splits only at `'\n'`. It does not strip the `'\r'` of a `"\r\n"` line ending, as Rust's `lines()` does. The encoder never writes `'\r'`.
- Text.ParseI64: it covers an optional sign, decimal digits and the 64-bit range, which is all the core needs of Rust's `parse::<i64>`.
- SimpleStorage.Storage.SyncFileFromMem: a failed `write_all` is modelled as having written nothing after the truncation. Partially written files are not modelled.
- SimpleStorage.SaveTwice: it proves that the two files hold the same lines, each once (`IdsSet.EncodingsSameLines`). It does not prove they are byte-identical, because `HashSet` iteration order is left unspecified.
