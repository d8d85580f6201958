/** The hub's data and bookkeeping (src/ws/hub.rs): the shared membership snapshot
    and its per-session projection, the mapping of the room script's reply to a
    result, the cleanup of a process's sessions, the table of open room
    subscriptions and the names of the publish/subscribe channels. The store
    itself, the script and the listener tasks are outside the model. */
module Hub {
  import opened Wrappers
  import opened Seqs

  /** An `i8`, the width of the script's status code. */
  newtype i8 = x: int | -128 <= x < 128

  datatype RoomChangeType = Add | Del | NameChange

  /** `RoomChangeType::default()`. */
  function DefaultRoomChangeType(): (t: RoomChangeType)
    ensures t.Add?
  {
    Add
  }

  /** The record handed to the room script. */
  datatype RoomChangeForHub = RoomChangeForHub(id: string, name: Option<string>, room: string, kind: RoomChangeType)

  /** The script's reply. */
  datatype RoomChangeForHubResponse = RoomChangeForHubResponse(status: i8, msg: string)

  /** What a hub call can fail with: the script's refusal, carrying its message,
      or a store/decoding failure whose detail is opaque here. */
  datatype HubError = BusinessError(msg: string) | StoreError(detail: string)

  /** `change_rooms` after the round trip to the store: `reply` is the decoded
      script reply, or the error that the connection, the request or the decoding
      raised (each of which `?` propagates). */
  function ChangeRooms(reply: Result<RoomChangeForHubResponse, HubError>): (r: Result<(), HubError>)
    ensures r.Success? <==> reply.Success? && reply.value.status == 0
    ensures reply.Success? && reply.value.status != 0 ==> r == Failure(BusinessError(reply.value.msg))
    ensures reply.Failure? ==> r == Failure(reply.error)
  {
    match reply
    case Failure(e) => Failure(e)
    case Success(res) => if res.status != 0 then Failure(BusinessError(res.msg)) else Success(())
  }

  // ---------------------------------------------------------------------------
  // The membership snapshot

  /** `ChatServerForHub`: display names by session, and the two membership
      indexes, each a map to a set kept as a map to `true` for the script's sake. */
  datatype ChatServerForHub = ChatServerForHub(
    sessions: map<string, string>,
    rooms: map<string, map<string, bool>>,
    sessionRoomMap: map<string, map<string, bool>>)

  /** `UpdateRooms`: room to (member to display name). */
  type UpdateRooms = map<string, map<string, string>>

  /** The rooms of `sid` according to the inverse index; an unknown session has none. */
  function RoomsOf(hub: ChatServerForHub, sid: string): (rs: set<string>)
    ensures sid !in hub.sessionRoomMap ==> rs == {}
    ensures forall r :: r in rs <==> sid in hub.sessionRoomMap && r in hub.sessionRoomMap[sid]
  {
    if sid in hub.sessionRoomMap then hub.sessionRoomMap[sid].Keys else {}
  }

  /** `get_by_session` unwraps the display name of every member of every room it
      reports: this is what it needs of the snapshot not to panic. */
  predicate MembersKnown(hub: ChatServerForHub, sid: string)
  {
    forall r, m :: r in RoomsOf(hub, sid) && r in hub.rooms && m in hub.rooms[r] ==> m in hub.sessions
  }

  /** `ChatServerForHub::get_by_session`. */
  function GetBySession(hub: ChatServerForHub, sid: string): (v: UpdateRooms)
    requires MembersKnown(hub, sid)
    ensures v.Keys == RoomsOf(hub, sid) * hub.rooms.Keys
    ensures sid !in hub.sessionRoomMap ==> v == map[]
    ensures forall r :: r in v ==> v[r].Keys == hub.rooms[r].Keys
    ensures forall r, m :: r in v && m in v[r] ==> v[r][m] == hub.sessions[m]
  {
    map r | r in RoomsOf(hub, sid) && r in hub.rooms ::
      map m | m in hub.rooms[r] :: hub.sessions[m]
  }

  /** The two membership indexes agree: `s` is a member of `r` exactly when `r`
      is among the rooms of `s`. The room script that writes both indexes is
      not modelled, so lemmas that need this agreement take it as a requirement. */
  predicate Consistent(hub: ChatServerForHub)
  {
    && (forall r, s :: r in hub.rooms && s in hub.rooms[r] ==> s in hub.sessionRoomMap && r in hub.sessionRoomMap[s])
    && (forall s, r :: s in hub.sessionRoomMap && r in hub.sessionRoomMap[s] ==> r in hub.rooms && s in hub.rooms[r])
  }

  /** Every member of every room has a display name. */
  predicate NamesKnown(hub: ChatServerForHub)
  {
    forall r, m :: r in hub.rooms && m in hub.rooms[r] ==> m in hub.sessions
  }

  /** On a consistent snapshot, a session's view holds exactly the rooms it is a
      member of, and it sees itself, under its own name, in each of them. */
  lemma GetBySessionSeesSelf(hub: ChatServerForHub, sid: string)
    requires Consistent(hub) && NamesKnown(hub)
    ensures MembersKnown(hub, sid)
    ensures forall r :: r in GetBySession(hub, sid) <==> r in hub.rooms && sid in hub.rooms[r]
    ensures forall r :: r in GetBySession(hub, sid) ==>
      sid in GetBySession(hub, sid)[r] && GetBySession(hub, sid)[r][sid] == hub.sessions[sid]
  {
    var v := GetBySession(hub, sid);
    forall r | r in hub.rooms && sid in hub.rooms[r]
      ensures r in v && sid in v[r] && v[r][sid] == hub.sessions[sid]
    {
      assert r in RoomsOf(hub, sid);
    }
    forall r | r in v
      ensures r in hub.rooms && sid in hub.rooms[r]
    {
      assert r in hub.sessionRoomMap[sid];
    }
  }

  // ---------------------------------------------------------------------------
  // Cleanup at shutdown

  /** The record `clean_sessions` issues for one (room, session) pair. */
  function Removal(room: string, id: string): (c: RoomChangeForHub)
    ensures c.kind == Del && c.name == None && c.room == room && c.id == id
  {
    RoomChangeForHub(id, None, room, Del)
  }

  /** Every (room, session) pair of the process's local map. */
  predicate IsLocalPair(local: map<string, set<string>>, room: string, id: string)
  {
    room in local && id in local[room]
  }

  /** `clean_sessions`: one `Del` record per (room, session) pair of the local map,
      each sent through `change_rooms`; `script` stands for the store's reply to
      each record. The `unwrap` on each result panics on the first failure, which
      is reported as `panicked` with the failing record last in `issued`. */
  method CleanSessions(local: map<string, set<string>>,
                       script: RoomChangeForHub -> Result<RoomChangeForHubResponse, HubError>)
    returns (issued: seq<RoomChangeForHub>, panicked: bool)
    ensures NoDuplicates(issued)
    ensures forall k :: 0 <= k < |issued| ==>
      issued[k] == Removal(issued[k].room, issued[k].id) && IsLocalPair(local, issued[k].room, issued[k].id)
    ensures forall k :: 0 <= k < |issued| - 1 ==> ChangeRooms(script(issued[k])).Success?
    ensures panicked <==> issued != [] && ChangeRooms(script(issued[|issued| - 1])).Failure?
    ensures !panicked ==> forall room, id :: IsLocalPair(local, room, id) ==> Removal(room, id) in issued
  {
    issued, panicked := [], false;
    var todo := local.Keys;
    while todo != {}
      invariant todo <= local.Keys
      invariant NoDuplicates(issued)
      invariant forall k :: 0 <= k < |issued| ==>
        issued[k] == Removal(issued[k].room, issued[k].id) && IsLocalPair(local, issued[k].room, issued[k].id)
        && issued[k].room !in todo
      invariant forall k :: 0 <= k < |issued| ==> ChangeRooms(script(issued[k])).Success?
      invariant forall room, id :: IsLocalPair(local, room, id) && room !in todo ==> Removal(room, id) in issued
      decreases todo
    {
      var room :| room in todo;
      var ids := local[room];
      ghost var before := issued;
      while ids != {}
        invariant ids <= local[room]
        invariant before <= issued
        invariant NoDuplicates(issued)
        invariant forall k :: 0 <= k < |issued| ==>
          issued[k] == Removal(issued[k].room, issued[k].id) && IsLocalPair(local, issued[k].room, issued[k].id)
          && (issued[k].room !in todo || (issued[k].room == room && issued[k].id !in ids))
        invariant forall k :: 0 <= k < |issued| ==> ChangeRooms(script(issued[k])).Success?
        invariant forall r, id :: IsLocalPair(local, r, id) && r !in todo ==> Removal(r, id) in issued
        invariant forall id :: id in local[room] && id !in ids ==> Removal(room, id) in issued
        decreases ids
      {
        var id :| id in ids;
        var change := Removal(room, id);
        issued := issued + [change];
        if ChangeRooms(script(change)).Failure? {
          panicked := true;
          return;
        }
        ids := ids - {id};
      }
      todo := todo - {room};
    }
  }

  // ---------------------------------------------------------------------------
  // Publish/subscribe channels

  const CLIENT_MESSAGE_CHANNEL: string := "client_message"
  const SYSTEM_MESSAGE_CHANNEL: string := "system_message"

  /** `format!("{}_{}", room, kind)`: the room, an underscore, the kind. */
  function ChannelName(room: string, kind: string): (n: string)
    ensures |n| == |room| + 1 + |kind|
    ensures n[..|room|] == room && n[|room|] == '_' && n[|room| + 1..] == kind
  {
    room + "_" + kind
  }

  /** The channel a room's chat messages travel on. */
  function ClientChannel(room: string): (c: string)
    ensures |room| <= |c| && c[..|room|] == room && c[|room|..] == "_client_message"
  {
    assert (room + "_" + CLIENT_MESSAGE_CHANNEL)[|room|..] == "_" + CLIENT_MESSAGE_CHANNEL;
    ChannelName(room, CLIENT_MESSAGE_CHANNEL)
  }

  /** The channel a room's system messages travel on. */
  function SystemChannel(room: string): (c: string)
    ensures |room| <= |c| && c[..|room|] == room && c[|room|..] == "_system_message"
  {
    assert (room + "_" + SYSTEM_MESSAGE_CHANNEL)[|room|..] == "_" + SYSTEM_MESSAGE_CHANNEL;
    ChannelName(room, SYSTEM_MESSAGE_CHANNEL)
  }

  /** Two channel names whose kinds have the same length coincide only when both
      the room and the kind do. */
  lemma ChannelNameInjective(a: string, ka: string, b: string, kb: string)
    requires |ka| == |kb|
    requires ChannelName(a, ka) == ChannelName(b, kb)
    ensures a == b && ka == kb
  {
    var s := ChannelName(a, ka);
    assert |a| == |b|;
    assert a == s[..|a|] == b;
    assert ka == s[|a| + 1..] == kb;
  }

  /** A room's client channel is no other room's client channel and no room's
      system channel. */
  lemma ChannelsDistinct(a: string, b: string)
    ensures ClientChannel(a) == ClientChannel(b) ==> a == b
    ensures SystemChannel(a) == SystemChannel(b) ==> a == b
    ensures ClientChannel(a) != SystemChannel(b)
  {
    if ClientChannel(a) == ClientChannel(b) {
      ChannelNameInjective(a, CLIENT_MESSAGE_CHANNEL, b, CLIENT_MESSAGE_CHANNEL);
    }
    if SystemChannel(a) == SystemChannel(b) {
      ChannelNameInjective(a, SYSTEM_MESSAGE_CHANNEL, b, SYSTEM_MESSAGE_CHANNEL);
    }
    if ClientChannel(a) == SystemChannel(b) {
      ChannelNameInjective(a, CLIENT_MESSAGE_CHANNEL, b, SYSTEM_MESSAGE_CHANNEL);
    }
  }

  datatype ClientMessageForHub = ClientMessageForHub(room: string, id: string, content: string)
  datatype SystemMessageForHub = SystemMessageForHub(room: string, toId: string, content: string)
  datatype MessageForHub = Client(client: ClientMessageForHub) | System(system: SystemMessageForHub)

  /** One message handed to the store's `publish`, with the channel it goes to. */
  datatype Publication = Publication(channel: string, message: MessageForHub)

  /** `publish_client_msg`: the message goes, unchanged, to its room's client
      channel, where that room's listener picks it up. */
  function PublishClientMsg(m: ClientMessageForHub): (p: Publication)
    ensures p.channel == m.room + "_client_message" && p.message == Client(m)
  {
    Publication(ClientChannel(m.room), Client(m))
  }

  /** `publish_system_msg`: the same on the room's system channel. */
  function PublishSystemMsg(m: SystemMessageForHub): (p: Publication)
    ensures p.channel == m.room + "_system_message" && p.message == System(m)
  {
    Publication(SystemChannel(m.room), System(m))
  }

  /** The two channels a room's listener subscribes to (system first, then client). */
  datatype Subscription = Subscription(system: string, client: string)

  /** `subscribe`: the room's system and client channels, which are distinct. */
  function Subscribe(room: string): (s: Subscription)
    ensures s.system == room + "_system_message" && s.client == room + "_client_message"
    ensures s.system != s.client
  {
    ChannelsDistinct(room, room);
    Subscription(SystemChannel(room), ClientChannel(room))
  }

  /** What a listener forwards for a publication: the message when it arrives on
      one of its channels, decoded as the kind that channel carries. */
  function Deliver(s: Subscription, p: Publication): (r: Option<MessageForHub>)
    ensures r.Some? ==> r.value == p.message
    ensures p.channel != s.client && p.channel != s.system ==> r.None?
  {
    if p.channel == s.client && p.message.Client? then Some(p.message)
    else if p.channel == s.system && p.message.System? then Some(p.message)
    else None
  }

  /** Publishers and subscribers agree on channel names: a message published for a
      room is delivered, unchanged, by that room's listener and by no other. */
  lemma PublishReachesExactlyItsRoom(room: string, c: ClientMessageForHub, s: SystemMessageForHub)
    ensures Deliver(Subscribe(room), PublishClientMsg(c)) == (if c.room == room then Some(Client(c)) else None)
    ensures Deliver(Subscribe(room), PublishSystemMsg(s)) == (if s.room == room then Some(System(s)) else None)
  {
    ChannelsDistinct(c.room, room);
    ChannelsDistinct(room, s.room);
  }

  // ---------------------------------------------------------------------------
  // The subscription table

  /** The table is well formed when each entry is the subscription of its key. */
  predicate TableValid(t: map<string, Subscription>)
  {
    forall r :: r in t ==> t[r] == Subscribe(r)
  }

  /** The table after `open_channel(room)`. */
  function Opened(t: map<string, Subscription>, room: string): (t': map<string, Subscription>)
    ensures t'.Keys == t.Keys + {room}
    ensures forall r :: r in t ==> t'[r] == t[r]
    ensures room !in t ==> t'[room] == Subscribe(room)
  {
    if room in t then t else t[room := Subscribe(room)]
  }

  /** The table after `close_channel(room)`. */
  function Closed(t: map<string, Subscription>, room: string): (t': map<string, Subscription>)
    ensures t'.Keys == t.Keys - {room}
    ensures forall r :: r in t' ==> t'[r] == t[r]
  {
    t - {room}
  }

  /** Opening twice is opening once; closing twice is closing once. */
  lemma OpenCloseIdempotent(t: map<string, Subscription>, room: string)
    ensures Opened(Opened(t, room), room) == Opened(t, room)
    ensures Closed(Closed(t, room), room) == Closed(t, room)
    ensures room !in t ==> Closed(t, room) == t
  {
  }

  /** Both operations keep every entry the subscription of its own room. */
  lemma OpenClosePreserveValid(t: map<string, Subscription>, room: string)
    requires TableValid(t)
    ensures TableValid(Opened(t, room)) && TableValid(Closed(t, room))
  {
  }

  /** `RedisHub.channels`, reduced to the table itself. */
  class ChannelTable {
    var channels: map<string, Subscription>

    /** Every entry is the subscription of its own room. */
    predicate Valid()
      reads this
    {
      TableValid(channels)
    }

    constructor ()
      ensures channels == map[] && Valid()
    {
      channels := map[];
    }

    /** `open_channel`: subscribe to `room` unless a listener for it exists. */
    method OpenChannel(room: string)
      requires Valid()
      modifies this
      ensures channels == Opened(old(channels), room)
      ensures Valid() && room in channels
    {
      OpenClosePreserveValid(channels, room);
      if room !in channels {
        channels := channels[room := Subscribe(room)];
      }
    }

    /** `close_channel`: remove `room`'s entry if present; `signalled` tells whether
        a listener was told to stop (and waited for). */
    method CloseChannel(room: string) returns (signalled: bool)
      requires Valid()
      modifies this
      ensures signalled <==> room in old(channels)
      ensures channels == Closed(old(channels), room)
      ensures Valid() && room !in channels
    {
      OpenClosePreserveValid(channels, room);
      signalled := room in channels;
      channels := channels - {room};
    }
  }
}
