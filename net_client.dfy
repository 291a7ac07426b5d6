/**
 * `PySteamClient` (src/net_client.rs): a thin Python-facing wrapper over the
 * Steamworks SDK. The SDK itself is not modelled; it is replaced by a value of
 * type `SteamWorld` that records what the wrapper can observe of it (whether
 * start-up succeeds, the signed-in user, lobby member lists, queued inbound
 * messages and queued SDK callbacks) and the requests the wrapper makes of it.
 */
module NetClient {
  import opened Base

  // ---------------------------------------------------------------------------
  // Lobby types
  // ---------------------------------------------------------------------------

  /** Steamworks `LobbyType`. */
  datatype LobbyType = Private | FriendsOnly | Public | Invisible

  /** The SDK's ordinal of each lobby type. */
  function LobbyTypeCode(k: LobbyType): (code: u32)
    ensures code <= 3
  {
    match k
    case Private => 0
    case FriendsOnly => 1
    case Public => 2
    case Invisible => 3
  }

  /** The integer-to-lobby-type mapping of `create_lobby`: codes 0 to 3 select
      the type with that ordinal, any other code falls back to Private. */
  function LobbyTypeOf(code: u32): (k: LobbyType)
    ensures code <= 3 ==> LobbyTypeCode(k) == code
    ensures code > 3 ==> k == Private
  {
    match code
    case 0 => Private
    case 1 => FriendsOnly
    case 2 => Public
    case 3 => Invisible
    case _ => Private
  }

  /** Every lobby type is reachable, through its own ordinal. */
  lemma LobbyTypeRoundTrip(k: LobbyType)
    ensures LobbyTypeOf(LobbyTypeCode(k)) == k
  {
  }

  // ---------------------------------------------------------------------------
  // Python callables as the wrapper holds them
  // ---------------------------------------------------------------------------

  /** A Python callable (`Py<PyAny>`): an identity and the range of positional
      argument counts its signature accepts. */
  datatype Callback = Callback(id: nat, minArgs: nat, maxArgs: nat)

  /** A Python value the wrapper passes to a callable. */
  datatype PyArg =
    | IntArg(n: u64)
    | NoneArg
    | StrArg(s: string)
    | ErrorArg(message: string)   // a `RuntimeError` instance
    | BytesArg(data: string)

  /** One `cb.call1(py, args)`. The wrapper discards what the call returns or
      raises (`let _ = ...`). */
  datatype Invocation = Invocation(cb: Callback, args: seq<PyArg>)

  /** Python binds the call only when the argument count fits the signature;
      otherwise the call raises `TypeError` before the body runs. */
  predicate Accepts(cb: Callback, argc: nat) {
    cb.minArgs <= argc <= cb.maxArgs
  }

  // ---------------------------------------------------------------------------
  // The abstract Steam transport
  // ---------------------------------------------------------------------------

  /** An inbound message: the sender's raw Steam id and the payload. */
  datatype Packet = Packet(sender: u64, data: string)

  /** A request the wrapper makes of the SDK, in the order made. */
  datatype Request =
    | RunCallbacksReq
    | CreateLobbyReq(kind: LobbyType, maxMembers: u32, onCreated: Callback)
    | JoinLobbyReq(lobby: u64, onJoined: Callback)
    | LeaveLobbyReq(lobby: u64)
    | SendReq(to: u64, sendType: i32, channel: u32, data: string)

  /** An SDK callback waiting for the next `run_callbacks`. */
  datatype SteamEvent =
    | LobbyChatUpdate(lobby: u64, userChanged: u64, makingChange: u64, stateChange: u64)
    | SessionFailed(remote: u64)
    | LobbyCreated(onCreated: Callback, created: Result<u64, string>)
    | LobbyEntered(onJoined: Callback, entered: Result<u64, string>)

  datatype SteamWorld = SteamWorld(
    initError: Option<string>,        // why `Client::init_app` fails; None when it succeeds
    user: u64,                        // the signed-in user's Steam id
    lobbies: map<u64, seq<u64>>,      // member lists the SDK reports, in its order
    inbox: map<u32, seq<Packet>>,     // inbound messages per channel, oldest first
    pending: seq<SteamEvent>,         // SDK callbacks not yet run
    log: seq<Request>)                // requests made so far

  /** Handles the wrapper keeps after a successful start-up. */
  datatype ClientHandle = ClientHandle(appId: u32)
  datatype MessagesHandle = NetworkingMessages(appId: u32)

  /** The SDK's member list of a lobby; an unknown lobby has none. */
  function MembersIn(lobbies: map<u64, seq<u64>>, lobby: u64): seq<u64> {
    if lobby in lobbies then lobbies[lobby] else []
  }

  function QueueOf(inbox: map<u32, seq<Packet>>, channel: u32): seq<Packet> {
    if channel in inbox then inbox[channel] else []
  }

  /** What `get_lobby_members` can observe. */
  datatype LobbyView = LobbyView(ready: bool, lobbies: map<u64, seq<u64>>)

  /** `get_lobby_members`: the member ids in the SDK's order, or one of its two
      errors: the client is not initialised, or the list is empty. */
  function LobbyMembers(v: LobbyView, lobby: u64): (r: Result<seq<u64>, string>)
    ensures r.Ok? <==> v.ready && MembersIn(v.lobbies, lobby) != []
    ensures r.Ok? ==> r.value == MembersIn(v.lobbies, lobby)
    ensures !v.ready ==> r == Err("Client not initialized")
    ensures v.ready && r.Err? ==> r == Err("Lobby not found or no members")
  {
    if !v.ready then Err("Client not initialized")
    else
      var members := MembersIn(v.lobbies, lobby);
      if members == [] then Err("Lobby not found or no members") else Ok(members)
  }

  // ---------------------------------------------------------------------------
  // Callback dispatch inside `run_callbacks`
  // ---------------------------------------------------------------------------

  /** The invocation one SDK event causes. Chat updates go through the
      lobby-changed slot and session failures through the connection-failed
      slot, so an empty slot swallows them; lobby create and join results always
      reach the callable passed with the request. */
  function Dispatch(ev: SteamEvent, lobbyChanged: Option<Callback>, connFailed: Option<Callback>)
    : (r: Option<Invocation>)
    ensures r.None? <==> (ev.LobbyChatUpdate? && lobbyChanged.None?) || (ev.SessionFailed? && connFailed.None?)
    ensures r.Some? && ev.LobbyChatUpdate? ==>
      r.value == Invocation(lobbyChanged.value,
                            [IntArg(ev.lobby), IntArg(ev.userChanged), IntArg(ev.makingChange), IntArg(ev.stateChange)])
    ensures r.Some? && ev.SessionFailed? ==> r.value == Invocation(connFailed.value, [IntArg(ev.remote)])
    ensures r.Some? && ev.LobbyCreated? ==>
      (r.value.cb == ev.onCreated && (ev.created.Ok? ==> r.value.args == [IntArg(ev.created.value)])
       && (ev.created.Err? ==> r.value.args == [NoneArg, StrArg(ev.created.error)]))
    ensures r.Some? && ev.LobbyEntered? ==>
      (r.value.cb == ev.onJoined && (ev.entered.Ok? ==> r.value.args == [IntArg(ev.entered.value), NoneArg])
       && (ev.entered.Err? ==> r.value.args == [NoneArg, ErrorArg("No Lobby Found: " + ev.entered.error)]))
  {
    match ev
    case LobbyChatUpdate(lobby, user, making, state) =>
      if lobbyChanged.Some? then
        Some(Invocation(lobbyChanged.value, [IntArg(lobby), IntArg(user), IntArg(making), IntArg(state)]))
      else None
    case SessionFailed(remote) =>
      if connFailed.Some? then Some(Invocation(connFailed.value, [IntArg(remote)])) else None
    case LobbyCreated(cb, created) =>
      (match created
       case Ok(id) => Some(Invocation(cb, [IntArg(id)]))
       case Err(e) => Some(Invocation(cb, [NoneArg, StrArg(e)])))
    case LobbyEntered(cb, entered) =>
      (match entered
       case Ok(id) => Some(Invocation(cb, [IntArg(id), NoneArg]))
       case Err(e) => Some(Invocation(cb, [NoneArg, ErrorArg("No Lobby Found: " + e)])))
  }

  /** The invocations a batch of SDK events causes, in event order. None is
      lost while both slots are filled. */
  function Fired(events: seq<SteamEvent>, lobbyChanged: Option<Callback>, connFailed: Option<Callback>)
    : (r: seq<Invocation>)
    ensures |r| <= |events|
    ensures lobbyChanged.Some? && connFailed.Some? ==> |r| == |events|
  {
    if events == [] then []
    else CallsOf(events[0], lobbyChanged, connFailed) + Fired(events[1..], lobbyChanged, connFailed)
  }

  /** The calls one event causes: its dispatch, or none. */
  function CallsOf(ev: SteamEvent, lobbyChanged: Option<Callback>, connFailed: Option<Callback>): (r: seq<Invocation>)
    ensures |r| <= 1
    ensures lobbyChanged.Some? && connFailed.Some? ==> |r| == 1
  {
    var d := Dispatch(ev, lobbyChanged, connFailed);
    if d.Some? then [d.value] else []
  }

  /** The calls of one event are that event's dispatch, if any. */
  lemma FiredOne(ev: SteamEvent, lobbyChanged: Option<Callback>, connFailed: Option<Callback>)
    ensures Fired([ev], lobbyChanged, connFailed)
      == (var d := Dispatch(ev, lobbyChanged, connFailed); if d.Some? then [d.value] else [])
  {
    assert [ev][1..] == [];
  }

  /** Events are dispatched in order: the calls of two batches run back to back
      are the calls of the first batch followed by those of the second. */
  lemma {:induction false} FiredAppend(a: seq<SteamEvent>, b: seq<SteamEvent>,
                                       lobbyChanged: Option<Callback>, connFailed: Option<Callback>)
    ensures Fired(a + b, lobbyChanged, connFailed) == Fired(a, lobbyChanged, connFailed) + Fired(b, lobbyChanged, connFailed)
  {
    if a == [] {
      assert a + b == b;
    } else {
      var ab := a + b;
      assert ab[0] == a[0] && ab[1..] == a[1..] + b;
      FiredAppend(a[1..], b, lobbyChanged, connFailed);
    }
  }

  /** While both slots are filled, the i-th call is the dispatch of the i-th event. */
  lemma {:induction false} FiredEach(events: seq<SteamEvent>, lobbyChanged: Option<Callback>, connFailed: Option<Callback>)
    requires lobbyChanged.Some? && connFailed.Some?
    ensures |Fired(events, lobbyChanged, connFailed)| == |events|
    ensures forall i :: 0 <= i < |events| ==>
      Dispatch(events[i], lobbyChanged, connFailed) == Some(Fired(events, lobbyChanged, connFailed)[i])
  {
    if events != [] {
      FiredEach(events[1..], lobbyChanged, connFailed);
      var rest := Fired(events[1..], lobbyChanged, connFailed);
      assert CallsOf(events[0], lobbyChanged, connFailed) == [Dispatch(events[0], lobbyChanged, connFailed).value];
      assert Fired(events, lobbyChanged, connFailed) == [Dispatch(events[0], lobbyChanged, connFailed).value] + rest;
      forall i | 0 <= i < |events|
        ensures Dispatch(events[i], lobbyChanged, connFailed) == Some(Fired(events, lobbyChanged, connFailed)[i])
      {
        if i > 0 {
          assert events[i] == events[1..][i - 1];
        }
      }
    }
  }

  /** The invocation of the message callable for one inbound message. */
  function Delivery(cb: Callback, p: Packet): Invocation {
    Invocation(cb, [IntArg(p.sender), BytesArg(p.data)])
  }

  // ---------------------------------------------------------------------------
  // The wrapper object
  // ---------------------------------------------------------------------------

  class PySteamClient {
    /** The SDK client; present from a successful `init` until `deinit`. */
    var client: Option<ClientHandle>
    /** The networking-messages interface; set by `init`, never cleared. */
    var messages: Option<MessagesHandle>
    var cbConnFailed: Option<Callback>
    var cbLobbyChanged: Option<Callback>
    var cbMessageRecv: Option<Callback>
    /** The SDK as the wrapper sees it. */
    var steam: SteamWorld

    /** The networking interface is there whenever the client is. */
    ghost predicate Valid()
      reads this
    {
      client.Some? ==> messages.Some?
    }

    /** `is_ready`: the SDK client is present; a ready wrapper in a valid
        state can also send and receive messages. */
    predicate IsReady(): (r: bool)
      reads this
      ensures r <==> client.Some?
      ensures r && Valid() ==> messages.Some?
    {
      client.Some?
    }

    /** The three callback slots: lobby changed, connection failed, message received. */
    function Slots(): (Option<Callback>, Option<Callback>, Option<Callback>)
      reads this
    {
      (cbLobbyChanged, cbConnFailed, cbMessageRecv)
    }

    function View(): LobbyView
      reads this
    {
      LobbyView(IsReady(), steam.lobbies)
    }

    /** `new`: not ready, no networking interface, all three slots empty. */
    constructor (world: SteamWorld)
      ensures Valid() && !IsReady()
      ensures messages.None?
      ensures cbConnFailed.None? && cbLobbyChanged.None? && cbMessageRecv.None?
      ensures steam == world
    {
      client := None;
      messages := None;
      cbConnFailed := None;
      cbLobbyChanged := None;
      cbMessageRecv := None;
      steam := world;
    }

    /** `init`: on success the client is ready and both handles are set; on
        failure the error is returned and both are left as they were. */
    method Init(appId: u32) returns (r: Result<(), string>)
      requires Valid()
      modifies this
      ensures Valid()
      ensures r.Ok? <==> old(steam.initError).None?
      ensures r.Ok? ==>
        (IsReady() && client == Some(ClientHandle(appId)) && messages == Some(NetworkingMessages(appId)))
      ensures r.Err? ==>
        (r.error == old(steam.initError).value && client == old(client) && messages == old(messages))
      ensures steam == old(steam)
      ensures cbConnFailed == old(cbConnFailed) && cbLobbyChanged == old(cbLobbyChanged)
        && cbMessageRecv == old(cbMessageRecv)
    {
      match steam.initError
      case None =>
        client := Some(ClientHandle(appId));
        messages := Some(NetworkingMessages(appId));
        r := Ok(());
      case Some(e) =>
        r := Err(e);
    }

    /** `deinit`: drops the client only; the networking interface stays. */
    method Deinit()
      modifies this
      ensures !IsReady()
      ensures messages == old(messages) && steam == old(steam)
      ensures cbConnFailed == old(cbConnFailed) && cbLobbyChanged == old(cbLobbyChanged)
        && cbMessageRecv == old(cbMessageRecv)
    {
      client := None;
    }

    /** `run_callbacks`: when ready, runs every queued SDK callback, which
        yields the invocations of `Fired`; otherwise does nothing. */
    method RunCallbacks() returns (fired: seq<Invocation>)
      modifies this
      ensures old(client).None? ==> steam == old(steam) && fired == []
      ensures old(client).Some? ==>
        (fired == Fired(old(steam.pending), cbLobbyChanged, cbConnFailed)
         && steam == old(steam).(pending := [], log := old(steam.log) + [RunCallbacksReq]))
      ensures client == old(client) && messages == old(messages)
      ensures cbConnFailed == old(cbConnFailed) && cbLobbyChanged == old(cbLobbyChanged)
        && cbMessageRecv == old(cbMessageRecv)
    {
      fired := [];
      if client.Some? {
        fired := Fired(steam.pending, cbLobbyChanged, cbConnFailed);
        steam := steam.(pending := [], log := steam.log + [RunCallbacksReq]);
      }
    }

    /** `receive_messages`: when the networking interface is there (even after
        `deinit`), takes up to `maxMessages` messages off `channel` and calls
        the message callable once per message, in order; with the slot empty
        the messages are taken and nothing is called. */
    method ReceiveMessages(channel: u32, maxMessages: nat) returns (fired: seq<Invocation>)
      modifies this
      ensures old(messages).None? ==> steam == old(steam) && fired == []
      ensures old(messages).Some? ==>
        var queue := QueueOf(old(steam.inbox), channel);
        var n := if |queue| < maxMessages then |queue| else maxMessages;
        && steam == old(steam).(inbox := old(steam.inbox)[channel := queue[n..]])
        && |fired| == (if cbMessageRecv.Some? then n else 0)
        && forall i :: 0 <= i < |fired| ==> fired[i] == Delivery(cbMessageRecv.value, queue[i])
      ensures client == old(client) && messages == old(messages)
      ensures cbConnFailed == old(cbConnFailed) && cbLobbyChanged == old(cbLobbyChanged)
        && cbMessageRecv == old(cbMessageRecv)
    {
      fired := [];
      if messages.Some? {
        var queue := QueueOf(steam.inbox, channel);
        var n := if |queue| < maxMessages then |queue| else maxMessages;
        var batch := queue[..n];
        steam := steam.(inbox := steam.inbox[channel := queue[n..]]);
        var i := 0;
        while i < |batch|
          invariant 0 <= i <= |batch|
          invariant |fired| == (if cbMessageRecv.Some? then i else 0)
          invariant forall k :: 0 <= k < |fired| ==> fired[k] == Delivery(cbMessageRecv.value, batch[k])
        {
          if cbMessageRecv.Some? {
            fired := fired + [Delivery(cbMessageRecv.value, batch[i])];
          }
          i := i + 1;
        }
      }
    }

    /** `create_lobby`: when ready, asks the SDK for a lobby of the mapped type;
        otherwise makes no request. */
    method CreateLobby(lobbyType: u32, maxMembers: u32, onCreated: Callback)
      modifies this
      ensures steam == if old(IsReady())
        then old(steam).(log := old(steam.log) + [CreateLobbyReq(LobbyTypeOf(lobbyType), maxMembers, onCreated)])
        else old(steam)
      ensures client == old(client) && messages == old(messages)
      ensures cbConnFailed == old(cbConnFailed) && cbLobbyChanged == old(cbLobbyChanged)
        && cbMessageRecv == old(cbMessageRecv)
    {
      if client.Some? {
        var kind := LobbyTypeOf(lobbyType);
        steam := steam.(log := steam.log + [CreateLobbyReq(kind, maxMembers, onCreated)]);
      }
    }

    /** `join_lobby`: when ready, asks the SDK to join; otherwise makes no request. */
    method JoinLobby(lobbyId: u64, onJoined: Callback)
      modifies this
      ensures steam == if old(IsReady())
        then old(steam).(log := old(steam.log) + [JoinLobbyReq(lobbyId, onJoined)])
        else old(steam)
      ensures client == old(client) && messages == old(messages)
      ensures cbConnFailed == old(cbConnFailed) && cbLobbyChanged == old(cbLobbyChanged)
        && cbMessageRecv == old(cbMessageRecv)
    {
      if client.Some? {
        steam := steam.(log := steam.log + [JoinLobbyReq(lobbyId, onJoined)]);
      }
    }

    /** `leave_lobby`: when ready, tells the SDK to leave; otherwise makes no request. */
    method LeaveLobby(lobbyId: u64)
      modifies this
      ensures steam == if old(IsReady())
        then old(steam).(log := old(steam.log) + [LeaveLobbyReq(lobbyId)])
        else old(steam)
      ensures client == old(client) && messages == old(messages)
      ensures cbConnFailed == old(cbConnFailed) && cbLobbyChanged == old(cbLobbyChanged)
        && cbMessageRecv == old(cbMessageRecv)
    {
      if client.Some? {
        steam := steam.(log := steam.log + [LeaveLobbyReq(lobbyId)]);
      }
    }

    /** `get_lobby_members`: fails with "Client not initialized" when not ready
        and with "Lobby not found or no members" on an empty list; otherwise the
        raw member ids in the SDK's order. */
    method GetLobbyMembers(lobbyId: u64) returns (r: Result<seq<u64>, string>)
      ensures !IsReady() ==> r == Err("Client not initialized")
      ensures IsReady() && MembersIn(steam.lobbies, lobbyId) == [] ==> r == Err("Lobby not found or no members")
      ensures IsReady() && MembersIn(steam.lobbies, lobbyId) != [] ==> r == Ok(steam.lobbies[lobbyId])
      ensures r == LobbyMembers(View(), lobbyId)
    {
      if client.Some? {
        var members := MembersIn(steam.lobbies, lobbyId);
        if members == [] {
          r := Err("Lobby not found or no members");
        } else {
          r := Ok(members);
        }
      } else {
        r := Err("Client not initialized");
      }
    }

    /** `set_lobby_changed_callback`: replaces that slot only. */
    method SetLobbyChangedCallback(cb: Callback)
      modifies this
      ensures cbLobbyChanged == Some(cb)
      ensures cbConnFailed == old(cbConnFailed) && cbMessageRecv == old(cbMessageRecv)
      ensures client == old(client) && messages == old(messages) && steam == old(steam)
    {
      cbLobbyChanged := Some(cb);
    }

    /** `set_connection_failed_callback`: replaces that slot only. */
    method SetConnectionFailedCallback(cb: Callback)
      modifies this
      ensures cbConnFailed == Some(cb)
      ensures cbLobbyChanged == old(cbLobbyChanged) && cbMessageRecv == old(cbMessageRecv)
      ensures client == old(client) && messages == old(messages) && steam == old(steam)
    {
      cbConnFailed := Some(cb);
    }

    /** `set_message_recv_callback`: replaces that slot only. */
    method SetMessageRecvCallback(cb: Callback)
      modifies this
      ensures cbMessageRecv == Some(cb)
      ensures cbConnFailed == old(cbConnFailed) && cbLobbyChanged == old(cbLobbyChanged)
      ensures client == old(client) && messages == old(messages) && steam == old(steam)
    {
      cbMessageRecv := Some(cb);
    }

    /** `send_message_to`: sends when the networking interface is there (even
        after `deinit`); otherwise does nothing. */
    method SendMessageTo(steamId: u64, messageType: i32, channel: u32, message: string)
      modifies this
      ensures steam == if old(messages).Some?
        then old(steam).(log := old(steam.log) + [SendReq(steamId, messageType, channel, message)])
        else old(steam)
      ensures client == old(client) && messages == old(messages)
      ensures cbConnFailed == old(cbConnFailed) && cbLobbyChanged == old(cbLobbyChanged)
        && cbMessageRecv == old(cbMessageRecv)
    {
      if messages.Some? {
        steam := steam.(log := steam.log + [SendReq(steamId, messageType, channel, message)]);
      }
    }

    /** `own_steam_id`: the signed-in user's id when ready, 0 otherwise. */
    function OwnSteamId(): (id: u64)
      reads this
      ensures !IsReady() ==> id == 0
      ensures IsReady() ==> id == steam.user
    {
      if client.Some? then steam.user else 0
    }
  }
}
