/**
 * The second-generation server (chatserver/src/server): its tables of
 * names, sessions and rooms, the events the sessions send it and the reply
 * to each (server_events.rs, and the same arms inside `Server::start` in
 * mod.rs), and the translation of a reply into the `Message` a session
 * writes back to its client (`handle_session` in mod.rs).
 *
 * The tables are specified as a value (`Tables`), each event by a function
 * from the old tables to the new ones and the reply (`Step`), and the
 * `Server` class is proved to move exactly as `Step` says.
 */
module ChatServer {
  import opened Wrappers
  import opened Text
  import opened Listing
  import opened RoomManager
  import M = Messages
  import ChatClientState

  datatype ServerEvent =
    | Register(id: U64, username: string)
    | JoinRoom(id: U64, room: string)
    | LeaveRoom(id: U64, room: string)
    | SendTo(id: U64, room: string, content: string)
    | List(id: U64, opt: string)
    | DropSession(id: U64)
    | CreateRoom(room: string)
    | PrivMsg(id: U64, username: string, content: string)
    | ChangeName(id: U64, newUsername: string)

  datatype ServerReply =
    | Registered(username: string)
    | Joined(room: string)
    | ListingUsers(content: string)
    | ListingRooms(content: string)
    | ListingUserRooms(content: string)
    | LeftRoom(room: string)
    | CreatedRoom(room: string)
    | MessagedUser
    | MessagedRoom
    | NameChanged(newUsername: string, oldUsername: string)
    | Failed(error: string)

  /** A session's name and the rooms it has joined; its tasks and handles are not modelled. */
  datatype Session = Session(username: string, rooms: set<string>)

  /** A message put on the handle of session `to`. */
  datatype Envelope = Envelope(to: U64, message: M.Message)

  /** A message sent on the broadcast channel of `room`. */
  datatype RoomPost = RoomPost(room: string, message: M.Message)

  /** Everything an event can read or change. */
  datatype Tables = Tables(
    usernameToId: map<string, U64>,
    idToUsername: map<U64, string>,
    rooms: map<string, Room>,
    sessions: map<U64, Session>,
    delivered: seq<Envelope>,
    posted: seq<RoomPost>)

  /** The new tables after an event, and the reply sent back, if any. */
  datatype Outcome = Outcome(tables: Tables, reply: Option<ServerReply>)

  const UsernameExists := "Username already exists"
  const InvalidOption := "Invalid option"
  const AlreadyInRoom := "Already part of room"
  const NotInRoom := "Not part of room"
  const RoomExists := "Room already exists"
  const NoSuchUser := "No such user"
  const NoReceivingSession := "Receiving session not found"

  // ---------------------------------------------------------------------------
  // The event arms, as functions of the tables
  // ---------------------------------------------------------------------------

  /**
   * What `handle_event` needs to not panic: a ChangeName that gets past its
   * checks, and a PrivMsg to a known name, index `id_to_username` by the
   * sender's id.
   */
  predicate EventDefined(t: Tables, e: ServerEvent) {
    match e
    case ChangeName(id, newUsername) =>
      newUsername !in t.usernameToId && id in t.sessions ==> id in t.idToUsername
    case PrivMsg(id, username, _) => username in t.usernameToId ==> id in t.idToUsername
    case _ => true
  }

  function RegisterStep(t: Tables, id: U64, username: string): Outcome {
    if username in t.usernameToId then Outcome(t, Some(Failed(UsernameExists)))
    else if id in t.sessions then
      Outcome(t.(sessions := t.sessions[id := t.sessions[id].(username := username)],
                 usernameToId := t.usernameToId[username := id],
                 idToUsername := t.idToUsername[id := username]),
              Some(Registered(username)))
    else Outcome(t, None)
  }

  function ChangeNameStep(t: Tables, id: U64, newUsername: string): Outcome
    requires EventDefined(t, ChangeName(id, newUsername))
  {
    if newUsername in t.usernameToId then Outcome(t, Some(Failed(UsernameExists)))
    else if id in t.sessions then
      var oldUsername := t.idToUsername[id];
      Outcome(t.(sessions := t.sessions[id := t.sessions[id].(username := newUsername)],
                 idToUsername := t.idToUsername[id := newUsername],
                 usernameToId := (t.usernameToId - {oldUsername})[newUsername := id]),
              Some(NameChanged(newUsername, oldUsername)))
    else Outcome(t, None)
  }

  /** The keys a listing joins: the names, the session's rooms, or all rooms. */
  function ListedKeys(t: Tables, id: U64, opt: string): set<string> {
    if opt == "users" then t.usernameToId.Keys
    else if opt == "rooms" then (if id in t.sessions then t.sessions[id].rooms else {})
    else if opt == "allrooms" then t.rooms.Keys
    else {}
  }

  /** `order` is the order in which the listed map yields its keys. */
  function ListStep(t: Tables, id: U64, opt: string, order: seq<string>): Outcome {
    var content := JoinWith(order, ",");
    if opt == "users" then Outcome(t, Some(ListingUsers(content)))
    else if opt == "rooms" then
      (if id in t.sessions then Outcome(t, Some(ListingUserRooms(content))) else Outcome(t, None))
    else if opt == "allrooms" then Outcome(t, Some(ListingRooms(content)))
    else Outcome(t, Some(Failed(InvalidOption)))
  }

  function JoinRoomStep(t: Tables, id: U64, room: string): Outcome {
    if id !in t.sessions then Outcome(t, None)
    else if room in t.sessions[id].rooms then Outcome(t, Some(Failed(AlreadyInRoom)))
    else if room !in t.rooms then Outcome(t, Some(Failed(FailedToJoin)))
    else
      var s := t.sessions[id];
      Outcome(t.(sessions := t.sessions[id := s.(rooms := s.rooms + {room})]), Some(Joined(room)))
  }

  function LeaveRoomStep(t: Tables, id: U64, room: string): Outcome {
    if id !in t.sessions then Outcome(t, None)
    else if room !in t.sessions[id].rooms then Outcome(t, Some(Failed(NotInRoom)))
    else
      var s := t.sessions[id];
      Outcome(t.(sessions := t.sessions[id := s.(rooms := s.rooms - {room})]), Some(LeftRoom(room)))
  }

  function CreateRoomStep(t: Tables, room: string): Outcome {
    if room in t.rooms then Outcome(t, Some(Failed(RoomExists)))
    else Outcome(t.(rooms := t.rooms[room := Room(room)]), Some(CreatedRoom(room)))
  }

  /** The text a room member's post carries: the sender's name, then the content. */
  function RoomText(username: string, content: string): string {
    username + ": " + content
  }

  /** The text a private message carries to its recipient. */
  function PrivateText(sender: string, content: string): string {
    "from " + sender + ": " + content
  }

  function SendToStep(t: Tables, id: U64, room: string, content: string): Outcome {
    if id !in t.sessions then Outcome(t, None)
    else if room in t.sessions[id].rooms then
      match M.Build(M.RoomMessage, id, Some(room), Some(RoomText(t.sessions[id].username, content)))
      case Ok(message) =>
        Outcome(t.(posted := t.posted + [RoomPost(room, message)]), Some(MessagedRoom))
      case Err(_) => Outcome(t, None)
    else Outcome(t, Some(Failed(NotInRoom)))
  }

  function PrivMsgStep(t: Tables, id: U64, username: string, content: string): Outcome
    requires EventDefined(t, PrivMsg(id, username, content))
  {
    if username !in t.usernameToId then Outcome(t, Some(Failed(NoSuchUser)))
    else
      var sender := t.idToUsername[id];
      var receiverId := t.usernameToId[username];
      if receiverId in t.sessions then
        match M.Build(M.IncomingMsg, id, None, Some(PrivateText(sender, content)))
        case Ok(message) =>
          Outcome(t.(delivered := t.delivered + [Envelope(receiverId, message)]), Some(MessagedUser))
        case Err(_) => Outcome(t, None)
      else Outcome(t, Some(Failed(NoReceivingSession)))
  }

  function DropSessionStep(t: Tables, id: U64): Outcome {
    var t' := if id in t.idToUsername
      then t.(idToUsername := t.idToUsername - {id}, usernameToId := t.usernameToId - {t.idToUsername[id]})
      else t;
    Outcome(t'.(sessions := t'.sessions - {id}), None)
  }

  /** `handle_event`: the arm of the event. */
  function Step(t: Tables, e: ServerEvent, order: seq<string>): Outcome
    requires EventDefined(t, e)
  {
    match e
    case Register(id, username) => RegisterStep(t, id, username)
    case ChangeName(id, newUsername) => ChangeNameStep(t, id, newUsername)
    case List(id, opt) => ListStep(t, id, opt, order)
    case JoinRoom(id, room) => JoinRoomStep(t, id, room)
    case LeaveRoom(id, room) => LeaveRoomStep(t, id, room)
    case CreateRoom(room) => CreateRoomStep(t, room)
    case SendTo(id, room, content) => SendToStep(t, id, room, content)
    case PrivMsg(id, username, content) => PrivMsgStep(t, id, username, content)
    case DropSession(id) => DropSessionStep(t, id)
  }

  /** The keys a List event joins; empty for every other event. */
  function EventKeys(t: Tables, e: ServerEvent): set<string> {
    if e.List? then ListedKeys(t, e.id, e.opt) else {}
  }

  /**
   * What the arms inside `Server::start` need to not panic: they unwrap the
   * session of the sender where `handle_event` skips a missing one, and the
   * PrivMsg arm unwraps the recipient's session too.
   */
  predicate ArmDefined(t: Tables, e: ServerEvent) {
    match e
    case Register(id, username) => username !in t.usernameToId ==> id in t.sessions
    case ChangeName(id, newUsername) =>
      newUsername !in t.usernameToId ==> id in t.sessions && id in t.idToUsername
    case List(id, opt) => opt == "rooms" ==> id in t.sessions
    case JoinRoom(id, _) => id in t.sessions
    case LeaveRoom(id, _) => id in t.sessions
    case SendTo(id, _, _) => id in t.sessions
    case PrivMsg(id, username, _) =>
      username in t.usernameToId ==> id in t.idToUsername && t.usernameToId[username] in t.sessions
    case _ => true
  }

  // ---------------------------------------------------------------------------
  // The server
  // ---------------------------------------------------------------------------

  class Server {
    var nextClientId: U64
    const port: U64
    var usernameToId: map<string, U64>
    var idToUsername: map<U64, string>
    const roomManager: RoomManager
    var sessions: map<U64, Session>
    /** The messages put on session handles, oldest first. */
    var delivered: seq<Envelope>
    /** The messages sent to rooms, oldest first. */
    var posted: seq<RoomPost>

    ghost function Snapshot(): Tables
      reads this, roomManager
    {
      Tables(usernameToId, idToUsername, roomManager.rooms, sessions, delivered, posted)
    }

    /** Every session sits below the next id, which is never 0. */
    ghost predicate IdsBelowNext()
      reads this
    {
      && nextClientId >= 1
      && (forall id :: id in sessions ==> id < nextClientId)
    }

    /** The ids are fresh, and the tables agree with each other. */
    ghost predicate Valid()
      reads this, roomManager
    {
      IdsBelowNext() && Consistent(Snapshot())
    }

    /** `Server::new`: no users or sessions, and the one room "main". */
    constructor (port: U64)
      ensures this.port == port && nextClientId == 1
      ensures usernameToId == map[] && idToUsername == map[] && sessions == map[]
      ensures roomManager.GetRooms() == {"main"}
      ensures delivered == [] && posted == []
      ensures Valid()
    {
      nextClientId := 1;
      this.port := port;
      usernameToId := map[];
      idToUsername := map[];
      roomManager := new RoomManager([Room("main")]);
      sessions := map[];
      delivered := [];
      posted := [];
    }

    /**
     * Accepting a connection: the session takes the next id, which no
     * session had, and the counter moves on (a `u64` addition that panics
     * rather than wrap in a debug build).
     */
    method Accept() returns (id: U64)
      requires IdsBelowNext() && nextClientId < U64_LIMIT - 1
      modifies this
      ensures IdsBelowNext()
      ensures old(Consistent(Snapshot())) ==> Consistent(Snapshot())
      ensures id == old(nextClientId) && id !in old(sessions)
      ensures nextClientId == id + 1
      ensures sessions == old(sessions)[id := Session("", {})]
      ensures usernameToId == old(usernameToId) && idToUsername == old(idToUsername)
      ensures delivered == old(delivered) && posted == old(posted)
    {
      id := nextClientId;
      nextClientId := nextClientId + 1;
      sessions := sessions[id := Session("", {})];
    }

    method HandleRegister(id: U64, username: string) returns (reply: Option<ServerReply>)
      modifies this
      ensures Outcome(Snapshot(), reply) == RegisterStep(old(Snapshot()), id, username)
      ensures nextClientId == old(nextClientId)
    {
      reply := None;
      if username in usernameToId {
        reply := Some(Failed(UsernameExists));
      } else if id in sessions {
        var session := sessions[id];
        sessions := sessions[id := session.(username := username)];
        usernameToId := usernameToId[username := id];
        idToUsername := idToUsername[id := username];
        reply := Some(Registered(username));
      }
    }

    method HandleChangeName(id: U64, newUsername: string) returns (reply: Option<ServerReply>)
      requires EventDefined(Snapshot(), ChangeName(id, newUsername))
      modifies this
      ensures Outcome(Snapshot(), reply) == ChangeNameStep(old(Snapshot()), id, newUsername)
      ensures nextClientId == old(nextClientId)
    {
      reply := None;
      if newUsername in usernameToId {
        reply := Some(Failed(UsernameExists));
      } else if id in sessions {
        var session := sessions[id];
        sessions := sessions[id := session.(username := newUsername)];
        var oldUsername := idToUsername[id];
        idToUsername := idToUsername[id := newUsername];
        usernameToId := usernameToId - {oldUsername};
        usernameToId := usernameToId[newUsername := id];
        reply := Some(NameChanged(newUsername, oldUsername));
      }
    }

    method HandleList(id: U64, opt: string) returns (reply: Option<ServerReply>, ghost order: seq<string>)
      ensures IsOrdering(order, ListedKeys(Snapshot(), id, opt))
      ensures reply == ListStep(Snapshot(), id, opt, order).reply
    {
      var content: string;
      if opt == "users" {
        content, order := JoinKeys(usernameToId.Keys);
        reply := Some(ListingUsers(content));
      } else if opt == "rooms" {
        if id in sessions {
          content, order := JoinKeys(sessions[id].rooms);
          reply := Some(ListingUserRooms(content));
        } else {
          order := [];
          reply := None;
        }
      } else if opt == "allrooms" {
        var rooms := roomManager.GetRooms();
        content, order := JoinKeys(rooms);
        reply := Some(ListingRooms(content));
      } else {
        order := [];
        reply := Some(Failed(InvalidOption));
      }
    }

    method HandleJoinRoom(id: U64, room: string) returns (reply: Option<ServerReply>)
      modifies this
      ensures Outcome(Snapshot(), reply) == JoinRoomStep(old(Snapshot()), id, room)
      ensures nextClientId == old(nextClientId)
    {
      reply := None;
      if id in sessions {
        var session := sessions[id];
        if room in session.rooms {
          reply := Some(Failed(AlreadyInRoom));
        } else {
          var joined := roomManager.Join(room);
          match joined
          case Ok(_) =>
            sessions := sessions[id := session.(rooms := session.rooms + {room})];
            reply := Some(Joined(room));
          case Err(e) =>
            reply := Some(Failed(e));
        }
      }
    }

    method HandleLeaveRoom(id: U64, room: string) returns (reply: Option<ServerReply>)
      modifies this
      ensures Outcome(Snapshot(), reply) == LeaveRoomStep(old(Snapshot()), id, room)
      ensures nextClientId == old(nextClientId)
    {
      reply := None;
      if id in sessions {
        var session := sessions[id];
        if room !in session.rooms {
          reply := Some(Failed(NotInRoom));
        } else {
          sessions := sessions[id := session.(rooms := session.rooms - {room})];
          reply := Some(LeftRoom(room));
        }
      }
    }

    method HandleCreateRoom(room: string) returns (reply: Option<ServerReply>)
      modifies roomManager
      ensures Outcome(Snapshot(), reply) == CreateRoomStep(old(Snapshot()), room)
    {
      var existingRooms := roomManager.GetRooms();
      if room in existingRooms {
        reply := Some(Failed(RoomExists));
      } else {
        roomManager.AddRoom(Room(room), room);
        reply := Some(CreatedRoom(room));
      }
    }

    method HandleSendTo(id: U64, room: string, content: string) returns (reply: Option<ServerReply>)
      modifies this
      ensures Outcome(Snapshot(), reply) == SendToStep(old(Snapshot()), id, room, content)
      ensures nextClientId == old(nextClientId)
    {
      reply := None;
      if id in sessions {
        var session := sessions[id];
        if room in session.rooms {
          var built := M.Build(M.RoomMessage, id, Some(room), Some(RoomText(session.username, content)));
          if built.Ok? {
            posted := posted + [RoomPost(room, built.value)];
            reply := Some(MessagedRoom);
          }
        } else {
          reply := Some(Failed(NotInRoom));
        }
      }
    }

    method HandlePrivMsg(id: U64, username: string, content: string) returns (reply: Option<ServerReply>)
      requires EventDefined(Snapshot(), PrivMsg(id, username, content))
      modifies this
      ensures Outcome(Snapshot(), reply) == PrivMsgStep(old(Snapshot()), id, username, content)
      ensures nextClientId == old(nextClientId)
    {
      reply := None;
      if username !in usernameToId {
        reply := Some(Failed(NoSuchUser));
      } else {
        var sender := idToUsername[id];
        var receiverId := usernameToId[username];
        if receiverId in sessions {
          var built := M.Build(M.IncomingMsg, id, None, Some(PrivateText(sender, content)));
          if built.Ok? {
            delivered := delivered + [Envelope(receiverId, built.value)];
            reply := Some(MessagedUser);
          }
        } else {
          reply := Some(Failed(NoReceivingSession));
        }
      }
    }

    method HandleDropSession(id: U64)
      modifies this
      ensures Snapshot() == DropSessionStep(old(Snapshot()), id).tables
      ensures nextClientId == old(nextClientId)
    {
      if id in idToUsername {
        var username := idToUsername[id];
        idToUsername := idToUsername - {id};
        usernameToId := usernameToId - {username};
      }
      sessions := sessions - {id};
    }

    /** `handle_event`: runs the arm of the event and returns the reply it sends, if any. */
    method HandleEvent(e: ServerEvent) returns (reply: Option<ServerReply>, ghost order: seq<string>)
      requires EventDefined(Snapshot(), e)
      modifies this, roomManager
      ensures IsOrdering(order, EventKeys(old(Snapshot()), e))
      ensures Outcome(Snapshot(), reply) == Step(old(Snapshot()), e, order)
      ensures nextClientId == old(nextClientId)
      ensures old(IdsBelowNext()) ==> IdsBelowNext()
      ensures old(Valid()) && (e.Register? ==> e.id !in old(idToUsername)) ==> Valid()
    {
      ghost var before := Snapshot();
      order := [];
      match e {
      case Register(id, username) =>
        reply := HandleRegister(id, username);
      case ChangeName(id, newUsername) =>
        reply := HandleChangeName(id, newUsername);
      case List(id, opt) =>
        reply, order := HandleList(id, opt);
      case JoinRoom(id, room) =>
        reply := HandleJoinRoom(id, room);
      case LeaveRoom(id, room) =>
        reply := HandleLeaveRoom(id, room);
      case CreateRoom(room) =>
        reply := HandleCreateRoom(room);
      case SendTo(id, room, content) =>
        reply := HandleSendTo(id, room, content);
      case PrivMsg(id, username, content) =>
        reply := HandlePrivMsg(id, username, content);
      case DropSession(id) =>
        HandleDropSession(id);
        reply := None;
      }
      StepAddsNoSession(before, e, order);
      if Consistent(before) && (e.Register? ==> e.id !in before.idToUsername) {
        StepKeepsConsistent(before, e, order);
      }
    }

    /**
     * One round of the event arms inside `Server::start`: where they do not
     * panic they do what `handle_event` does, and they answer every event but
     * DropSession.
     */
    method RunArm(e: ServerEvent) returns (reply: Option<ServerReply>, ghost order: seq<string>)
      requires ArmDefined(Snapshot(), e)
      modifies this, roomManager
      ensures IsOrdering(order, EventKeys(old(Snapshot()), e))
      ensures Outcome(Snapshot(), reply) == Step(old(Snapshot()), e, order)
      ensures reply.Some? <==> !e.DropSession?
      ensures nextClientId == old(nextClientId)
      ensures old(IdsBelowNext()) ==> IdsBelowNext()
      ensures old(Valid()) && (e.Register? ==> e.id !in old(idToUsername)) ==> Valid()
    {
      ArmsAreDefined(Snapshot(), e);
      ghost var before := Snapshot();
      reply, order := HandleEvent(e);
      ArmsAlwaysReply(before, e, order);
    }
  }

  // ---------------------------------------------------------------------------
  // Properties of the tables
  // ---------------------------------------------------------------------------

  /** The two name maps are inverse to each other. */
  ghost predicate Inverse(usernameToId: map<string, U64>, idToUsername: map<U64, string>) {
    && (forall n :: n in usernameToId ==> usernameToId[n] in idToUsername && idToUsername[usernameToId[n]] == n)
    && (forall id :: id in idToUsername ==> idToUsername[id] in usernameToId && usernameToId[idToUsername[id]] == id)
  }

  /**
   * The tables agree: the name maps are inverse, and every registered id
   * has a session that carries the registered name.
   */
  ghost predicate Consistent(t: Tables) {
    && Inverse(t.usernameToId, t.idToUsername)
    && (forall id :: id in t.idToUsername ==> id in t.sessions && t.sessions[id].username == t.idToUsername[id])
  }

  /** The arms inside `Server::start` never index a map where `handle_event` would not. */
  lemma ArmsAreDefined(t: Tables, e: ServerEvent)
    requires ArmDefined(t, e)
    ensures EventDefined(t, e)
  {
  }

  /** Where the arms inside `Server::start` do not panic, every event but DropSession is answered. */
  lemma ArmsAlwaysReply(t: Tables, e: ServerEvent, order: seq<string>)
    requires ArmDefined(t, e) && EventDefined(t, e)
    ensures Step(t, e, order).reply.Some? <==> !e.DropSession?
  {
    match e
    case SendTo(id, room, content) =>
      var s := t.sessions[id];
      assert M.HasShapeOf(M.RoomMessage, Some(room), Some(RoomText(s.username, content)));
    case PrivMsg(id, username, content) =>
      if username in t.usernameToId {
        assert M.HasShapeOf(M.IncomingMsg, None, Some(PrivateText(t.idToUsername[id], content)));
      }
    case _ =>
  }

  /** Every refusal leaves all the tables as they were. */
  lemma FailedChangesNothing(t: Tables, e: ServerEvent, order: seq<string>)
    requires EventDefined(t, e)
    requires Step(t, e, order).reply.Some? && Step(t, e, order).reply.value.Failed?
    ensures Step(t, e, order).tables == t
  {
  }

  /** Register and ChangeName refuse exactly the names already taken. */
  lemma TakenNamesRefused(t: Tables, e: ServerEvent, order: seq<string>)
    requires EventDefined(t, e) && (e.Register? || e.ChangeName?)
    ensures var name := if e.Register? then e.username else e.newUsername;
      Step(t, e, order).reply == Some(Failed(UsernameExists)) <==> name in t.usernameToId
  {
  }

  /**
   * The name maps stay inverse and in step with the sessions across every
   * event, provided a Register comes only from a session not yet registered.
   */
  lemma StepKeepsConsistent(t: Tables, e: ServerEvent, order: seq<string>)
    requires Consistent(t) && EventDefined(t, e)
    requires e.Register? ==> e.id !in t.idToUsername
    ensures Consistent(Step(t, e, order).tables)
  {
    match e
    case ChangeName(id, newUsername) => ChangeNameKeepsConsistent(t, id, newUsername);
    case DropSession(id) => DropSessionKeepsConsistent(t, id);
    case _ =>
  }

  lemma ChangeNameKeepsConsistent(t: Tables, id: U64, newUsername: string)
    requires Consistent(t) && EventDefined(t, ChangeName(id, newUsername))
    ensures Consistent(ChangeNameStep(t, id, newUsername).tables)
  {
    var t' := ChangeNameStep(t, id, newUsername).tables;
    if newUsername !in t.usernameToId && id in t.sessions {
      var oldUsername := t.idToUsername[id];
      assert t.usernameToId[oldUsername] == id;
      forall n | n in t'.usernameToId
        ensures t'.usernameToId[n] in t'.idToUsername && t'.idToUsername[t'.usernameToId[n]] == n
      {
        if n != newUsername {
          assert n in t.usernameToId && n != oldUsername;
          assert t.usernameToId[n] != id;
        }
      }
      forall id' | id' in t'.idToUsername
        ensures t'.idToUsername[id'] in t'.usernameToId && t'.usernameToId[t'.idToUsername[id']] == id'
      {
        if id' != id {
          assert t.idToUsername[id'] != oldUsername;
        }
      }
    }
  }

  lemma DropSessionKeepsConsistent(t: Tables, id: U64)
    requires Consistent(t)
    ensures Consistent(DropSessionStep(t, id).tables)
  {
    var t' := DropSessionStep(t, id).tables;
    if id in t.idToUsername {
      forall n | n in t'.usernameToId
        ensures t'.usernameToId[n] in t'.idToUsername && t'.idToUsername[t'.usernameToId[n]] == n
      {
        assert t.usernameToId[n] != id;
      }
    }
  }

  /** A second Register from a registered session leaves its first name mapped to it. */
  lemma SecondRegisterBreaksInverse()
    ensures var t := Tables(map["ann" := 1], map[1 := "ann"], map[], map[1 := Session("ann", {})], [], []);
      && Consistent(t)
      && !Consistent(Step(t, Register(1, "bob"), []).tables)
  {
    var t := Tables(map["ann" := 1], map[1 := "ann"], map[], map[1 := Session("ann", {})], [], []);
    var t' := Step(t, Register(1, "bob"), []).tables;
    assert "ann" != "bob" by { assert "ann"[0] != "bob"[0]; }
    assert t'.idToUsername[1] == "bob" && t'.usernameToId["ann"] == 1;
  }

  /** No event adds a session: sessions come only from accepting connections. */
  lemma StepAddsNoSession(t: Tables, e: ServerEvent, order: seq<string>)
    requires EventDefined(t, e)
    ensures Step(t, e, order).tables.sessions.Keys <= t.sessions.Keys
  {
  }

  /** DropSession forgets the session and its name, and a second one changes nothing. */
  lemma DropSessionForgets(t: Tables, id: U64, order: seq<string>)
    requires Consistent(t)
    ensures var t' := Step(t, DropSession(id), order).tables;
      && id !in t'.sessions && id !in t'.idToUsername
      && (forall n :: n in t'.usernameToId ==> t'.usernameToId[n] != id)
      && Step(t', DropSession(id), order).tables == t'
  {
    var t' := Step(t, DropSession(id), order).tables;
    forall n | n in t'.usernameToId ensures t'.usernameToId[n] != id {
      assert n in t.usernameToId;
    }
  }

  /**
   * A member's room changes: Joined adds the one room, LeftRoom removes it,
   * and nothing else about any session changes.
   */
  lemma MembershipChangesByOneRoom(t: Tables, e: ServerEvent, order: seq<string>)
    requires e.JoinRoom? || e.LeaveRoom?
    ensures var o := Step(t, e, order);
      (o.reply == Some(Joined(e.room)) || o.reply == Some(LeftRoom(e.room))) ==>
        && e.id in t.sessions
        && o.tables == t.(sessions := o.tables.sessions)
        && o.tables.sessions.Keys == t.sessions.Keys
        && (forall id :: id in t.sessions && id != e.id ==> o.tables.sessions[id] == t.sessions[id])
        && o.tables.sessions[e.id].username == t.sessions[e.id].username
        && (e.JoinRoom? ==>
              e.room !in t.sessions[e.id].rooms && e.room in t.rooms
              && o.tables.sessions[e.id].rooms == t.sessions[e.id].rooms + {e.room})
        && (e.LeaveRoom? ==>
              e.room in t.sessions[e.id].rooms
              && o.tables.sessions[e.id].rooms == t.sessions[e.id].rooms - {e.room})
  {
  }

  /** JoinRoom succeeds exactly for an existing room the session is not yet in. */
  lemma JoinRoomOutcomes(t: Tables, id: U64, room: string, order: seq<string>)
    requires id in t.sessions
    ensures var r := Step(t, JoinRoom(id, room), order).reply;
      && (r == Some(Joined(room)) <==> room !in t.sessions[id].rooms && room in t.rooms)
      && (r == Some(Failed(AlreadyInRoom)) <==> room in t.sessions[id].rooms)
      && (r == Some(Failed(FailedToJoin)) <==> room !in t.sessions[id].rooms && room !in t.rooms)
  {
    assert AlreadyInRoom != FailedToJoin by { assert AlreadyInRoom[0] != FailedToJoin[0]; }
  }

  /** CreateRoom adds exactly the one new room, and refuses a name already in use. */
  lemma CreateRoomAddsOneRoom(t: Tables, room: string, order: seq<string>)
    ensures var o := Step(t, CreateRoom(room), order);
      && (o.reply == Some(CreatedRoom(room)) <==> room !in t.rooms)
      && (room in t.rooms ==> o.reply == Some(Failed(RoomExists)))
      && o.tables.rooms.Keys == t.rooms.Keys + {room}
      && o.tables == t.(rooms := o.tables.rooms)
  {
  }

  /**
   * SendTo from a member posts exactly one RoomMessage to that room, from
   * the sender's id, carrying the sender's name and the content; a
   * non-member is refused.
   */
  lemma SendToPostsOnce(t: Tables, id: U64, room: string, content: string, order: seq<string>)
    requires id in t.sessions
    ensures var o := Step(t, SendTo(id, room, content), order);
      && (room !in t.sessions[id].rooms ==> o == Outcome(t, Some(Failed(NotInRoom))))
      && (room in t.sessions[id].rooms ==>
            && o.reply == Some(MessagedRoom)
            && o.tables == t.(posted := o.tables.posted)
            && |o.tables.posted| == |t.posted| + 1
            && o.tables.posted[..|t.posted|] == t.posted
            && var p := o.tables.posted[|t.posted|];
            && p.room == room
            && p.message.header == M.MessageHeader(M.RoomMessage, id)
            && p.message.body == M.MessageBody(Some(room), Some(RoomText(t.sessions[id].username, content)))
            && M.CheckMessage(p.message).Ok?)
  {
    var s := t.sessions[id];
    assert M.HasShapeOf(M.RoomMessage, Some(room), Some(RoomText(s.username, content)));
  }

  /**
   * PrivMsg to a known name with a live session puts exactly one
   * IncomingMsg on that session's handle, from the sender's id, carrying the
   * sender's name and the content; an unknown name is refused.
   */
  lemma PrivMsgDeliversOnce(t: Tables, id: U64, username: string, content: string, order: seq<string>)
    requires EventDefined(t, PrivMsg(id, username, content))
    ensures var o := Step(t, PrivMsg(id, username, content), order);
      && (username !in t.usernameToId ==> o == Outcome(t, Some(Failed(NoSuchUser))))
      && (username in t.usernameToId && t.usernameToId[username] !in t.sessions ==>
            o == Outcome(t, Some(Failed(NoReceivingSession))))
      && (username in t.usernameToId && t.usernameToId[username] in t.sessions ==>
            && o.reply == Some(MessagedUser)
            && o.tables == t.(delivered := o.tables.delivered)
            && |o.tables.delivered| == |t.delivered| + 1
            && o.tables.delivered[..|t.delivered|] == t.delivered
            && var d := o.tables.delivered[|t.delivered|];
            && d.to == t.usernameToId[username]
            && d.message.header == M.MessageHeader(M.IncomingMsg, id)
            && d.message.body == M.MessageBody(None, Some(PrivateText(t.idToUsername[id], content)))
            && M.CheckMessage(d.message).Ok?)
  {
    if username in t.usernameToId {
      assert M.HasShapeOf(M.IncomingMsg, None, Some(PrivateText(t.idToUsername[id], content)));
    }
  }

  /**
   * List answers only "users", "rooms" and "allrooms"; the content lists
   * every key of the listed map once, and with comma-free keys a client
   * splitting it on commas gets exactly those keys back.
   */
  lemma ListingLists(t: Tables, id: U64, opt: string, order: seq<string>)
    requires IsOrdering(order, ListedKeys(t, id, opt))
    ensures var o := Step(t, List(id, opt), order);
      && o.tables == t
      && (o.reply == Some(Failed(InvalidOption)) <==> opt !in {"users", "rooms", "allrooms"})
      && (opt in {"users", "rooms", "allrooms"} && o.reply.Some? ==>
            && o.reply.value.content == JoinWith(order, ",")
            && (order != [] && (forall k :: k in ListedKeys(t, id, opt) ==> Free(k, IsComma)) ==>
                  ListItems(o.reply.value.content) == order))
  {
    var o := Step(t, List(id, opt), order);
    if opt in {"users", "rooms", "allrooms"} && o.reply.Some? && order != []
      && (forall k :: k in ListedKeys(t, id, opt) ==> Free(k, IsComma))
    {
      forall i | 0 <= i < |order| ensures Free(order[i], IsComma) {
        assert order[i] in order;
      }
      ListingOfJoined("", order);
    }
  }

  // ---------------------------------------------------------------------------
  // `handle_session`: requests become events, replies become messages
  // ---------------------------------------------------------------------------

  /** The request types `handle_session` forwards to the server. */
  const ForwardedTypes: set<M.MessageType> :=
    {M.Register, M.ChangeName, M.Join, M.Leave, M.Create, M.SendTo, M.List, M.PrivMsg}

  /** The fields `handle_session` unwraps from a request: the argument, and the content of SendTo and PrivMsg. */
  predicate RequestDefined(m: M.Message) {
    && (m.header.messageType in ForwardedTypes ==> m.body.arg.Some?)
    && (m.header.messageType in {M.SendTo, M.PrivMsg} ==> m.body.content.Some?)
  }

  /** The event a request from session `sessionId` becomes; other message types are ignored. */
  function RequestEvent(m: M.Message, sessionId: U64): (e: Option<ServerEvent>)
    requires RequestDefined(m)
    ensures e.Some? <==> m.header.messageType in ForwardedTypes
    ensures e.Some? ==> !e.value.DropSession? && !e.value.CreateRoom? ==> e.value.id == sessionId
  {
    var arg, content := m.body.arg, m.body.content;
    match m.header.messageType
    case Register => Some(Register(sessionId, arg.value))
    case ChangeName => Some(ChangeName(sessionId, arg.value))
    case Join => Some(JoinRoom(sessionId, arg.value))
    case Leave => Some(LeaveRoom(sessionId, arg.value))
    case Create => Some(CreateRoom(arg.value))
    case SendTo => Some(SendTo(sessionId, arg.value, content.value))
    case List => Some(List(sessionId, arg.value))
    case PrivMsg => Some(PrivMsg(sessionId, arg.value, content.value))
    case _ => None
  }

  /** The command name a failure of each forwarded request is reported under. */
  function CommandName(t: M.MessageType): string
    requires t in ForwardedTypes
  {
    match t
    case Register => "register"
    case ChangeName => "changename"
    case Join => "join"
    case Leave => "leave"
    case Create => "create"
    case SendTo => "sendto"
    case List => "list"
    case PrivMsg => "privmsg"
  }

  /** A message from the server itself (sender id 0). */
  function ServerMessage(t: M.MessageType, arg: Option<string>, content: Option<string>): M.Message {
    M.Message(M.MessageHeader(t, 0), M.MessageBody(arg, content))
  }

  /**
   * The message `handle_session` writes back for the reply to a request; a
   * reply of a kind the request does not expect is dropped.
   */
  function ReplyMessage(request: M.Message, sessionId: U64, reply: ServerReply): Option<M.Message>
    requires RequestDefined(request)
  {
    var t, arg, content := request.header.messageType, request.body.arg, request.body.content;
    if t !in ForwardedTypes then None
    else if reply.Failed? then Some(ServerMessage(M.Failed, Some(CommandName(t)), Some(reply.error)))
    else match (t, reply)
      case (Register, Registered(username)) =>
        Some(ServerMessage(M.Registered, Some(ToDecimal(sessionId)), Some(username)))
      case (ChangeName, NameChanged(newUsername, oldUsername)) =>
        Some(ServerMessage(M.ChangedName, Some(newUsername), Some(oldUsername)))
      case (Join, Joined(room)) => Some(ServerMessage(M.Joined, Some(room), None))
      case (Leave, LeftRoom(room)) => Some(ServerMessage(M.LeftRoom, Some(room), None))
      case (Create, CreatedRoom(room)) => Some(ServerMessage(M.CreatedRoom, Some(room), None))
      case (SendTo, MessagedRoom) => Some(ServerMessage(M.MessagedRoom, arg, content))
      case (List, ListingUsers(c)) => Some(ServerMessage(M.Users, None, Some(c)))
      case (List, ListingUserRooms(c)) => Some(ServerMessage(M.UserRooms, None, Some(c)))
      case (List, ListingRooms(c)) => Some(ServerMessage(M.AllRooms, None, Some(c)))
      case (PrivMsg, MessagedUser) => Some(ServerMessage(M.OutgoingMsg, arg, content))
      case _ => None
  }

  /** A request that passes `check_message` has every field `handle_session` unwraps. */
  lemma CheckedRequestsAreDefined(m: M.Message)
    requires M.CheckMessage(m).Ok?
    ensures RequestDefined(m)
  {
    M.GroupsPartition(m.header.messageType);
  }

  /** Every message `handle_session` writes back passes `check_message`. */
  lemma RepliesPassCheck(request: M.Message, sessionId: U64, reply: ServerReply)
    requires RequestDefined(request) && ReplyMessage(request, sessionId, reply).Some?
    ensures M.CheckMessage(ReplyMessage(request, sessionId, reply).value).Ok?
  {
  }

  /**
   * A forwarded request that the arms inside `Server::start` handle without
   * panicking is answered with exactly one message.
   */
  lemma EveryRequestAnswered(t: Tables, request: M.Message, sessionId: U64, order: seq<string>)
    requires RequestDefined(request) && request.header.messageType in ForwardedTypes
    requires ArmDefined(t, RequestEvent(request, sessionId).value)
    ensures var e := RequestEvent(request, sessionId).value;
      EventDefined(t, e) && Step(t, e, order).reply.Some?
      && ReplyMessage(request, sessionId, Step(t, e, order).reply.value).Some?
  {
    var e := RequestEvent(request, sessionId).value;
    ArmsAlwaysReply(t, e, order);
  }

  /**
   * A refused request is reported as a Failed message naming the command;
   * only a refused Register is named "register", which is what makes the
   * client drop its connection.
   */
  lemma FailuresNameTheCommand(request: M.Message, sessionId: U64, error: string)
    requires RequestDefined(request) && request.header.messageType in ForwardedTypes
    ensures var r := ReplyMessage(request, sessionId, Failed(error));
      && r == Some(ServerMessage(M.Failed, Some(CommandName(request.header.messageType)), Some(error)))
      && ChatClientState.HandleDefined(r.value)
      && (r.value.body.arg == Some("register") <==> request.header.messageType == M.Register)
  {
    var t := request.header.messageType;
    if t != M.Register {
      var c := CommandName(t);
      assert |c| != |"register"|;
    }
  }

  /**
   * A Registered reply hands the client the session's own id: the argument
   * parses back to `sessionId`, so the client stores exactly that id and
   * the registered name.
   */
  lemma RegisteredCarriesSessionId(request: M.Message, sessionId: U64, username: string)
    requires RequestDefined(request) && request.header.messageType == M.Register
    ensures var r := ReplyMessage(request, sessionId, Registered(username));
      && r.Some? && r.value.header.messageType == M.Registered
      && ChatClientState.HandleDefined(r.value)
      && ParseU64(r.value.body.arg.value) == Some(sessionId)
      && r.value.body.content == Some(username)
  {
    ParseToDecimal(sessionId);
  }
}
