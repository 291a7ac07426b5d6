# py_steam_net: the client wrapper and its demo controller, in Dafny

This project models the two layers of py_steam_net's session handling.

- `PySteamClient` (src/net_client.rs) is the Python-facing wrapper around the
  Steamworks SDK. It holds an optional SDK client, an optional
  networking-messages interface and three callback slots. It forwards lobby
  requests only while it is ready, that is while it holds an SDK client. It
  sends and receives messages whenever a successful `init` has set the
  networking interface, which `deinit` does not clear.
- `SteamApp` (example/test.py) is the demo controller that drives the wrapper.
  It tracks the current lobby, shows the lobby id in a label, lists members,
  fans chat lines out to the other members, and reacts to the callbacks the
  wrapper fires.

The Steamworks SDK is not modelled. It is replaced by a value, `SteamWorld`,
which records what the wrapper can observe:

- whether start-up fails, and why;
- the signed-in user;
- each lobby's member list;
- inbound messages per channel;
- SDK callbacks waiting for `run_callbacks`.

`SteamWorld` also keeps a log of every request the wrapper makes (create,
join, leave, send, run callbacks). The wrapper is a class whose methods update
its fields and that value. The controller is a class whose fields are the
values its handlers write into widgets. Every controller method is proved
against a pure function of the controller state, and the properties are
proved about those functions.

A Python callable is modelled as a `Callback` that carries the argument counts
its signature accepts. A call the wrapper makes (`cb.call1(...)`) becomes an
`Invocation`, which the controller then handles. A call with the wrong number
of arguments raises `TypeError`, and the wrapper's `let _ =` discards it, so
such a call changes nothing.

Files:

- `base.dfy`: the machine integer widths, plus `Option` and `Result`.
- `pytext.dfy`: the Python `str` operations the controller relies on. These
  are `isdigit`, `int`, `str`, `strip`, `split` and `join`, with their
  round-trip properties.
- `net_client.dfy`: the lobby-type mapping, callback dispatch and the
  `PySteamClient` class.
- `test_app.dfy`: the controller state, its handlers as functions, the
  properties of those handlers, and the `SteamApp` class.

## Model

| member | source | states |
|---|---|---|
| NetClient.LobbyTypeOf | src/net_client.rs:115-121 | codes 0..3 select the lobby type with that ordinal; every other code selects Private |
| NetClient.LobbyTypeCode | src/net_client.rs:115-121 | the SDK ordinal of a lobby type is at most 3 |
| NetClient.LobbyTypeRoundTrip | src/net_client.rs:115-121 | every lobby type is selected by its own ordinal, so the mapping reaches all four |
| NetClient.LobbyMembers | src/net_client.rs:165-182 | fails with "Client not initialized" when not ready, with "Lobby not found or no members" on an empty list, and otherwise returns the member ids in the SDK's order; success holds exactly when ready with a non-empty list |
| NetClient.Dispatch | src/net_client.rs:39-154 | a chat update calls the lobby-changed slot with `(lobby, user_changed, making_change, state_change)`; a session failure calls the connection-failed slot with `(remote,)`; an empty slot swallows either. A create result calls the callable passed with the request with `(id,)` or `(None, message)`. A join result calls it with `(id, None)` or `(None, RuntimeError("No Lobby Found: ..."))` |
| NetClient.Fired | src/net_client.rs:87-91 | one run of the SDK callbacks fires at most one call per queued event, and exactly one per event while both slots are filled |
| NetClient.FiredOne | src/net_client.rs:87-91 | a single queued event fires exactly its own dispatch, or nothing when its slot is empty |
| NetClient.FiredAppend | src/net_client.rs:87-91 | events fire in queue order: the calls of two batches back to back are the first batch's calls followed by the second's |
| NetClient.FiredEach | src/net_client.rs:87-91 | while both slots are filled, the i-th call fired is the dispatch of the i-th queued event |
| NetClient.PySteamClient.constructor | src/net_client.rs:26-34 | a new wrapper is not ready, has no networking interface, and has all three callback slots empty |
| NetClient.PySteamClient.Init | src/net_client.rs:36-77 | success exactly when the SDK starts; on success the wrapper is ready with both handles set; on failure it returns the SDK's error and leaves `client` and `messages` as they were; the slots are untouched |
| NetClient.PySteamClient.IsReady | src/net_client.rs:83-85 | ready exactly when the SDK client is present; a ready wrapper also has the networking interface |
| NetClient.PySteamClient.Deinit | src/net_client.rs:79-81 | afterwards the wrapper is not ready, but `messages`, the slots and the SDK are unchanged |
| NetClient.PySteamClient.RunCallbacks | src/net_client.rs:87-91 | when not ready, nothing happens and nothing is fired; when ready, the queued SDK events are consumed and their calls are fired in order |
| NetClient.PySteamClient.ReceiveMessages | src/net_client.rs:93-109 | while the networking interface exists (even after deinit), the method takes up to `max_messages` messages off the channel and fires one call per message, in order, with `(sender, bytes)`; with the slot empty it takes them and fires nothing; without the interface it does nothing |
| NetClient.PySteamClient.CreateLobby | src/net_client.rs:111-134 | when ready, exactly one create request with the mapped lobby type is logged; otherwise the SDK is untouched; the wrapper's own fields never change |
| NetClient.PySteamClient.JoinLobby | src/net_client.rs:136-156 | when ready, exactly one join request is logged; otherwise the SDK is untouched |
| NetClient.PySteamClient.LeaveLobby | src/net_client.rs:158-163 | when ready, exactly one leave request is logged; otherwise the SDK is untouched |
| NetClient.PySteamClient.GetLobbyMembers | src/net_client.rs:165-182 | returns the two errors and the member list as `LobbyMembers` specifies, and changes nothing |
| NetClient.PySteamClient.SetLobbyChangedCallback | src/net_client.rs:184-187 | replaces the lobby-changed slot and no other field |
| NetClient.PySteamClient.SetConnectionFailedCallback | src/net_client.rs:189-192 | replaces the connection-failed slot and no other field |
| NetClient.PySteamClient.SetMessageRecvCallback | src/net_client.rs:194-197 | replaces the message slot and no other field |
| NetClient.PySteamClient.SendMessageTo | src/net_client.rs:199-216 | while the networking interface exists (even after deinit), exactly one send is logged; otherwise nothing happens |
| NetClient.PySteamClient.OwnSteamId | src/net_client.rs:218-224 | returns 0 when not ready and the signed-in user's id when ready |
| PyText.DecimalString | example/test.py:122 | `str(n)` is non-empty and all decimal digits, with no leading zero unless n is 0 |
| PyText.DecimalRoundTrip | example/test.py:140 | `int(str(n)) == n` |
| PyText.DecimalStringInjective | example/test.py:122 | different ids print differently |
| PyText.Strip | example/test.py:199-201 | the result is no longer than the input, is empty exactly when the input is all whitespace, and otherwise starts and ends with non-whitespace |
| PyText.StripWindow | example/test.py:199 | the input is the stripped text with only whitespace on either side |
| PyText.StripIdempotent | example/test.py:199 | stripping twice is stripping once |
| PyText.Find | example/test.py:246 | the index found is an occurrence with none before it; no index means no occurrence |
| PyText.Split | example/test.py:246 | at least one part, no part holds the separator, and joining the parts with the separator gives the input back |
| PyText.SplitPair | example/test.py:246 | text made of two sides, neither holding the separator's first character, splits into exactly those two sides |
| PyText.SplitJoin | example/test.py:182 | splitting a join of parts, none holding the separator's first character, gives the parts back |
| TestApp.ErrorText | example/test.py:126 | `error or "Unknown error"`: a truthy error is shown as its own text and a falsy one as "Unknown error" |
| TestApp.LobbyIdToCopy | example/test.py:244-248 | anything copied is not "None", holds no ": ", and is exactly what follows the label's first ": " |
| TestApp.CopyCreatedLabel | example/test.py:122 | the label set after a create yields exactly the printed lobby id |
| TestApp.CopyJoinedLabel | example/test.py:145 | the label set after a join yields exactly the printed lobby id |
| TestApp.CopyNoLobbyLabel | example/test.py:166 | the "Lobby ID: None" label yields nothing to copy |
| TestApp.ParseLobbyEntry | example/test.py:135-140 | an entry is accepted exactly when it is non-empty, all decimal digits and below 2^64; the accepted id is its decimal value |
| TestApp.ParseLobbyEntryRoundTrip | example/test.py:135-140 | a printed id is accepted as that same id |
| TestApp.CopiedIdRejoins | example/test.py:244-251 | the id copied from a created or joined label is accepted by the join box as the same lobby, both by the corrected reading and by `isdigit()`/`int()` as written |
| TestApp.JoinEntryAsWritten | example/test.py:135-140 | rejected exactly when `isdigit()` fails; any id accepted is the entry's decimal value |
| TestApp.SuperscriptEntryEscapesGuard | example/test.py:136-140 | "²" passes `isdigit()`, then `int()` raises |
| TestApp.OverflowEntryEscapesGuard | example/test.py:136-151 | `str(2**64)` passes `isdigit()`, then the conversion to the wrapper's u64 raises |
| TestApp.ParseLobbyEntryAgrees | example/test.py:135-140 | on the characters modelled, the corrected reading accepts exactly the entries the original turns into an id, with the same id |
| TestApp.ChatRecipients | example/test.py:206-209 | each id other than the local user's receives as many messages as the member list names it; the local user receives none |
| TestApp.ChatRecipientsAppend | example/test.py:206-208 | the recipients of a list are the recipients of its two halves, in order |
| TestApp.ChatReachesEachOtherMemberOnce | example/test.py:206-209 | with a repeat-free member list, every other member receives exactly one message |
| TestApp.ChatSends | example/test.py:209 | one send per recipient, in order, each with send type 2 on channel 0 |
| TestApp.ChatSendsStep | example/test.py:206-209 | one more member adds one send, unless that member is the local user |
| TestApp.MembersBox | example/test.py:182 | splitting the members box on newlines gives the printed member ids back |
| TestApp.RefreshMembers | example/test.py:176-192 | outside a lobby nothing changes; inside one only the members box changes, to the member ids or to "Error: " and the wrapper's message |
| TestApp.OnLobbyChanged | example/test.py:90-92 | an update for another lobby changes nothing; an update for the current lobby refreshes the members box |
| TestApp.OnMessageReceived | example/test.py:96-101 | appends exactly one chat line, "[sender] text", and changes nothing else |
| TestApp.OnLobbyCreated | example/test.py:119-126 | with an id, it becomes the current lobby, the label reads "Lobby ID: <id>" and copies back to it, the members box is refreshed for that lobby, and an info dialog is shown; without one, only the error dialog is added |
| TestApp.OnLobbyJoined | example/test.py:142-149 | with an id, it becomes the current lobby, the label reads "Joined Lobby ID: <id>" and copies back to it, the members box is refreshed for that lobby, and an info dialog is shown; without one, only the error dialog is added |
| TestApp.OnConnectionFailedAsWritten | example/test.py:105-106 | the handler as written, if it were called with two arguments: it adds exactly the error dialog "Connection Failed" / "Connection failed for <id> <reason>" and changes nothing else |
| TestApp.OnConnectionFailed | src/net_client.rs:61-66 | the corrected handler, taking the one argument the wrapper passes: it adds exactly the dialog "Connection failed for <id>" and changes nothing else. The program does not define it |
| TestApp.Handled | example/test.py:90-151 | one call into the six handlers: a call whose argument count the handler's signature rejects changes nothing; any call adds at most one dialog and at most one chat line, keeps earlier ones and the clipboard, and only the create and join results move the current lobby |
| TestApp.HandledAll | example/test.py:222-226 | a batch of calls handled in order adds at most one dialog and one chat line per call, keeps earlier ones and the clipboard, and moves the current lobby only if the batch holds a create or join result |
| TestApp.CreatedLobbyBecomesCurrent | example/test.py:119-124 | a created lobby's id, fired through the wrapper, becomes the current lobby |
| TestApp.FailedCreateKeepsLobby | example/test.py:125-126 | a failed create, fired through the wrapper, only adds the error dialog |
| TestApp.JoinResultHandled | example/test.py:142-149 | a joined id becomes the current lobby; a failed join only shows "No Lobby Found: ..." |
| TestApp.OtherLobbyUpdateIgnored | example/test.py:90-92 | a chat update for any lobby other than the current one changes nothing |
| TestApp.ConnectionFailureNeverShownAsWritten | example/test.py:105-108 | with the two-parameter handler the controller installs, a session failure fired by the wrapper changes nothing |
| TestApp.ConnectionFailureShown | src/net_client.rs:58-69 | with the corrected one-parameter handler, every session failure fired by the wrapper adds its dialog |
| TestApp.SteamApp.constructor | example/test.py:19-42 | a fresh wrapper that is not ready, has no networking interface and has three empty callback slots; no lobby, the "Lobby ID: None" label, and empty widgets |
| TestApp.SteamApp.InitClient | example/test.py:85-112 | starts app 480: on success the wrapper holds the client and networking interface for app 480, the three slots hold the lobby-changed, message and two-parameter connection-failed handlers, and "Client initialized!" is shown; on failure the error is shown and the wrapper is unchanged |
| TestApp.SteamApp.CreateLobby | example/test.py:114-128 | when not ready, warns and makes no request; otherwise requests one public lobby for four and changes no controller state; the callback slots are kept |
| TestApp.SteamApp.JoinLobby | example/test.py:130-151 | when not ready, warns; an entry failing `isdigit()` shows the error and makes no request; an entry that passes but that `int()` or the u64 conversion rejects raises, so nothing changes; otherwise exactly one join for that id is requested; the callback slots are kept |
| TestApp.SteamApp.LeaveLobby | example/test.py:153-174 | when not ready or not in a lobby, warns and makes no request; otherwise leaves the current lobby once, forgets it, and clears the label, members box and chat; the callback slots are kept |
| TestApp.SteamApp.UpdateLobbyMembers | example/test.py:176-192 | the new state is `RefreshMembers` of the old state |
| TestApp.SteamApp.SendChatToAll | example/test.py:194-214 | outside a lobby, warns; a blank line does nothing; a member-list error shows "Failed to send message: ..."; otherwise the log gains exactly the sends to every member other than the local user, in member order, and "[You] line" is echoed; the callback slots are kept |
| TestApp.SteamApp.FanOut | example/test.py:206-209 | the log gains exactly `ChatSends` of the recipients, and the wrapper's fields are unchanged |
| TestApp.SteamApp.OnLobbyChangedEvent | example/test.py:90-92 | the new state is `OnLobbyChanged` of the old state |
| TestApp.SteamApp.OnMessageReceivedEvent | example/test.py:96-101 | the new state is `OnMessageReceived` of the old state |
| TestApp.SteamApp.OnConnectionFailedEvent | example/test.py:105-106 | the new state is `OnConnectionFailedAsWritten` of the old state |
| TestApp.SteamApp.OnLobbyCreatedEvent | example/test.py:119-126 | the new state is `OnLobbyCreated` of the old state |
| TestApp.SteamApp.OnLobbyJoinedEvent | example/test.py:142-149 | the new state is `OnLobbyJoined` of the old state |
| TestApp.SteamApp.Invoke | example/test.py:90-108 | one wrapper call into a controller closure gives the state `Handled` describes, with calls of the wrong arity changing nothing; the invariant that being in a lobby implies readiness is kept |
| TestApp.SteamApp.InvokeAll | example/test.py:222-225 | a batch of calls gives the state of handling them in order |
| TestApp.SteamApp.CallbackLoop | example/test.py:222-226 | when not ready, nothing happens; when ready, the SDK callbacks run (the queue is emptied and one run is logged), then up to 100 messages are taken off channel 0 and nothing else in the SDK changes; every fired call is handled in order; the callback slots are kept |
| TestApp.SteamApp.DeinitClient | example/test.py:228-242 | the wrapper is no longer ready; the lobby, label, members box and chat are always cleared; `messages` and the callback slots are kept |
| TestApp.SteamApp.CopyLobbyId | example/test.py:244-253 | copies exactly `LobbyIdToCopy` of the label and says so, or warns when there is nothing to copy |

## Left out

- The Tk widgets are reduced to the values written into them: the lobby label, members box, chat lines and clipboard. `messagebox` dialogs become a log of notices.
- The status label (`update_status`) is not modelled, nor is the chat entry being emptied after a send. Both are display-only.
- DLL loading through `ctypes` is not modelled: it is process set-up.
- The Steamworks SDK (`Client::init_app`, matchmaking, networking messages) is replaced by the `SteamWorld` value. Lobby membership changes, create and join results, and inbound messages appear there as inputs, not as behaviour.
- `SendFlags::from_bits` and its fallback to reliable delivery are not modelled: the raw send type is logged as given. The `println!` in `send_message_to` is output only.
- `Arc<Mutex<...>>` sharing and `Python::with_gil` are not modelled, and neither are the Tk `after` timer or concurrency. One `CallbackLoop` call models one tick.
- Handlers run as soon as `RunCallbacks` returns, rather than inside it. Handlers only read wrapper state that `RunCallbacks` leaves unchanged, so the outcome is the same.
- Payloads are text. The UTF-8 encode in `send_chat_to_all` and the decode with `errors='replace'` in the message handler are not modelled.
- `PyText.IsDigitChar` covers the decimal digits and the three Latin-1 superscripts. The other Unicode characters that `str.isdigit` accepts above U+00FF are not modelled.
- TestApp.ParseLobbyEntryAgrees: the agreement holds only on the Latin-1 characters modelled. Above U+00FF, `isdigit()` and `int()` both accept other decimal digits, such as the fullwidth "１２", which the program reads as lobby 12. `JoinEntryAsWritten` and `ParseLobbyEntry` both reject such entries, because `PyText.IsDecimalChar` covers only the ASCII digits.
- The `unwrap()` calls that could panic on an identity without a Steam id are not modelled. They sit in the session-failed closure (src/net_client.rs:64) and in `receive_messages` (src/net_client.rs:100). Neither is the member-state flag's cast to `u64`: the event carries it already as an int.
- src/lib.rs is not part of this model: it only registers the Python module.
- `NetClient.PySteamClient.ReceiveMessages`: the order and count of calls are stated, but the payload bytes are carried as text.

## Findings

| source | as written | input that shows it | evidently intended | confidence | as-written member | corrected member |
|---|---|---|---|---|---|---|
| example/test.py:136-140 | `isdigit()` guards `int()`, but `isdigit()` also accepts superscript digits, which `int()` rejects with an uncaught `ValueError` | the entry "²" | reject the superscript digits too, with the "Invalid Lobby ID" error, as for any other entry that `int()` cannot read | not executed | TestApp.SuperscriptEntryEscapesGuard | TestApp.ParseLobbyEntryAgrees |
| example/test.py:136-151 | any digit string passes, but the wrapper takes a `u64`, so a value of 2^64 or more raises `OverflowError` in the join call. From Python 3.11 on, `int()` raises `ValueError` first on entries over 4300 digits; either exception escapes uncaught | the entry "18446744073709551616" (`str(2**64)`) | reject ids that do not fit a 64-bit Steam lobby id | not executed | TestApp.OverflowEntryEscapesGuard | TestApp.ParseLobbyEntry |
| example/test.py:105 | `on_connection_failed(steam_id, reason)` takes two parameters, but src/net_client.rs:61-66 calls it with one. The `TypeError` is discarded, so no failure is ever shown | any session failure, e.g. remote id 1 | show "Connection failed for <id>" for every failure | not executed | TestApp.ConnectionFailureNeverShownAsWritten | TestApp.ConnectionFailureShown |

The `SteamApp` class follows the program as written. `SteamApp.JoinLobby` reads the entry with `JoinEntryAsWritten`, and an entry that raises leaves everything unchanged. `SteamApp.InitClient` installs the two-parameter connection-failed handler, which never runs. The corrected definitions and their proved properties stand beside the class:

- `ParseLobbyEntry`, with `ParseLobbyEntryAgrees`, `ParseLobbyEntryRoundTrip` and `CopiedIdRejoins`;
- `OnConnectionFailed`, with `ConnectionFailureShown`.
