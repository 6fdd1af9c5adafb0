/**
 * The registry of the first-generation server (server/src/lib.rs): the id
 * counter, the connected clients, the user names taken, and the replies sent
 * to each client's handle.
 */
module ServerState {
  import opened Wrappers
  import opened Text
  import opened Listing

  /** An abort handle stands for the connection task it can stop. */
  datatype AbortHandle = AbortHandle(task: nat)

  /** `Client`; its reply channel is the server's outbox, its session is not modelled. */
  datatype Client = Client(id: U64, username: string)

  datatype ServerResponse =
    | Registered(username: string)
    | Joined(room: string)
    | Listing(opt: string, content: string)
    | LeftRoom(room: string)
    | CreatedRoom(room: string)
    | Messaged(username: string, content: string)
    | NameChanged(newUsername: string, oldUsername: string)
    | Failed(error: string)

  /** One response sent on the handle of client `to`. */
  datatype Delivery = Delivery(to: U64, response: ServerResponse)

  datatype ServerError =
    | FailedToStart
    | ClientNotFound
    | UserNameTaken
    | AlreadyJoinedRoom
    | FailedToJoinRoom
    | RoomAlreadyExists
    | NotPartOfRoom
    | UserNotFound

  /** `Display for ServerError` */
  function ErrorText(e: ServerError): (s: string)
    ensures |s| > 0
  {
    match e
    case FailedToStart => "Server failed to start"
    case ClientNotFound => "Client not found"
    case UserNameTaken => "Username is already in use"
    case AlreadyJoinedRoom => "Already part of room"
    case FailedToJoinRoom => "Could not join room"
    case RoomAlreadyExists => "Room already exists"
    case NotPartOfRoom => "You are not part of room"
    case UserNotFound => "User not found in server"
  }

  /** `Client::new`: a client starts without a name. */
  function NewClient(id: U64): (c: Client)
    ensures c.id == id && c.username == ""
  {
    Client(id, "")
  }

  class ServerState {
    var nextClientId: U64
    var clients: map<U64, Client>
    var usernameToId: map<string, U64>
    var abortHandles: map<U64, AbortHandle>
    /** The responses sent to clients, oldest first. */
    var outbox: seq<Delivery>
    /** The connection tasks aborted so far. */
    var aborted: seq<AbortHandle>

    /**
     * The id invariant kept by accepting through `get_next_id` and
     * `increment_id`: every client sits under its own id, below the next id.
     */
    ghost predicate IdsValid()
      reads this
    {
      && nextClientId >= 1
      && (forall id :: id in clients ==> clients[id].id == id && id < nextClientId)
      && (forall id :: id in abortHandles ==> id < nextClientId)
    }

    /** `Default::default` */
    constructor ()
      ensures nextClientId == 1 && clients == map[] && usernameToId == map[]
      ensures abortHandles == map[] && outbox == [] && aborted == []
      ensures IdsValid()
    {
      nextClientId := 1;
      clients := map[];
      usernameToId := map[];
      abortHandles := map[];
      outbox := [];
      aborted := [];
    }

    method GetNextId() returns (id: U64)
      ensures id == nextClientId
    {
      id := nextClientId;
    }

    /** `next_client_id += 1`, which panics rather than pass `u64::MAX` in a debug build. */
    method IncrementId()
      requires nextClientId < U64_LIMIT - 1
      modifies this
      ensures nextClientId == old(nextClientId) + 1
      ensures clients == old(clients) && usernameToId == old(usernameToId)
      ensures abortHandles == old(abortHandles) && outbox == old(outbox) && aborted == old(aborted)
    {
      nextClientId := nextClientId + 1;
    }

    method AddNewClient(client: Client, abortHandle: AbortHandle)
      modifies this
      ensures clients == old(clients)[client.id := client]
      ensures abortHandles == old(abortHandles)[client.id := abortHandle]
      ensures nextClientId == old(nextClientId) && usernameToId == old(usernameToId)
      ensures outbox == old(outbox) && aborted == old(aborted)
    {
      var id := client.id;
      clients := clients[id := client];
      abortHandles := abortHandles[id := abortHandle];
    }

    /**
     * `register`: an unknown client is an error; a taken name is refused on
     * the client's handle but is still `Ok`; a free name is mapped to the id.
     * The client record itself keeps its old name.
     */
    method Register(id: U64, username: string) returns (r: Result<Unit, ServerError>)
      modifies this
      ensures id !in old(clients) ==>
        r == Err(ClientNotFound) && usernameToId == old(usernameToId) && outbox == old(outbox)
      ensures id in old(clients) && username in old(usernameToId) ==>
        && r == Ok(Unit) && usernameToId == old(usernameToId)
        && outbox == old(outbox) + [Delivery(id, Failed(ErrorText(UserNameTaken)))]
      ensures id in old(clients) && username !in old(usernameToId) ==>
        && r == Ok(Unit) && usernameToId == old(usernameToId)[username := id]
        && outbox == old(outbox) + [Delivery(id, Registered(username))]
      ensures nextClientId == old(nextClientId) && clients == old(clients)
      ensures abortHandles == old(abortHandles) && aborted == old(aborted)
    {
      if id in clients {
        if username in usernameToId {
          outbox := outbox + [Delivery(id, Failed(ErrorText(UserNameTaken)))];
        } else {
          usernameToId := usernameToId[username := id];
          outbox := outbox + [Delivery(id, Registered(username))];
        }
        r := Ok(Unit);
      } else {
        r := Err(ClientNotFound);
      }
    }

    /**
     * `list_users`: the taken names joined by commas, in the map's own
     * iteration order; with comma-free names the pieces give the names back.
     */
    method ListUsers() returns (users: string, ghost order: seq<string>)
      ensures IsOrdering(order, usernameToId.Keys)
      ensures users == JoinWith(order, ",")
      ensures usernameToId == map[] ==> users == ""
      ensures users == "" && "" !in usernameToId ==> usernameToId == map[]
      ensures usernameToId != map[] && (forall u :: u in usernameToId ==> Free(u, IsComma)) ==>
        SplitOn(users, IsComma) == order
    {
      users, order := JoinKeys(usernameToId.Keys);
      // Every listed name is a key, so there are names exactly when the order is not empty.
      assert order != [] ==> order[0] in order;
      if usernameToId != map[] {
        var u :| u in usernameToId;
        assert u in order;
        // The join starts with the first name, followed by a comma when more follow.
        assert |order| > 1 ==> |users| >= |order[0]| + 1;
        assert |order| == 1 ==> users == order[0];
      }
      if usernameToId != map[] && forall u :: u in usernameToId ==> Free(u, IsComma) {
        var u :| u in usernameToId;
        assert u in order;
        assert forall i :: 0 <= i < |order| ==> Free(order[i], IsComma) by {
          forall i | 0 <= i < |order| ensures Free(order[i], IsComma) {
            assert order[i] in order;
          }
        }
        ListingOfJoined("", order);
      }
    }

    function GetUserId(username: string): (r: Option<U64>)
      reads this
      ensures r.Some? <==> username in usernameToId
      ensures r.Some? ==> usernameToId[username] == r.value
    {
      if username in usernameToId then Some(usernameToId[username]) else None
    }

    /**
     * `change_username`: a taken name is refused and is an error; a free one
     * replaces the key of the client's recorded name; an unknown client is
     * `Ok` and changes nothing.
     */
    method ChangeUsername(id: U64, newUsername: string) returns (r: Result<Unit, ServerError>)
      modifies this
      ensures id !in old(clients) ==>
        r == Ok(Unit) && usernameToId == old(usernameToId) && outbox == old(outbox)
      ensures id in old(clients) && newUsername in old(usernameToId) ==>
        && r == Err(UserNameTaken) && usernameToId == old(usernameToId)
        && outbox == old(outbox) + [Delivery(id, Failed(ErrorText(UserNameTaken)))]
      ensures id in old(clients) && newUsername !in old(usernameToId) ==>
        var oldUsername := old(clients)[id].username;
        && r == Ok(Unit)
        && usernameToId == (old(usernameToId) - {oldUsername})[newUsername := id]
        && outbox == old(outbox) + [Delivery(id, NameChanged(newUsername, oldUsername))]
      ensures nextClientId == old(nextClientId) && clients == old(clients)
      ensures abortHandles == old(abortHandles) && aborted == old(aborted)
    {
      r := Ok(Unit);
      if id in clients {
        var client := clients[id];
        if newUsername in usernameToId {
          outbox := outbox + [Delivery(id, Failed(ErrorText(UserNameTaken)))];
          return Err(UserNameTaken);
        } else {
          var oldUsername := client.username;
          usernameToId := usernameToId - {oldUsername};
          usernameToId := usernameToId[newUsername := id];
          outbox := outbox + [Delivery(id, NameChanged(newUsername, oldUsername))];
        }
      }
    }

    /**
     * `drop_client`: aborts the connection task, then forgets the client and
     * the key of its recorded name. The abort handle stays in its table.
     */
    method DropClient(id: U64)
      requires id in abortHandles && id in clients
      modifies this
      ensures clients == old(clients) - {id}
      ensures usernameToId == old(usernameToId) - {old(clients)[id].username}
      ensures aborted == old(aborted) + [old(abortHandles)[id]]
      ensures abortHandles == old(abortHandles)
      ensures nextClientId == old(nextClientId) && outbox == old(outbox)
    {
      var abortHandle := abortHandles[id];
      aborted := aborted + [abortHandle];
      var client := clients[id];
      usernameToId := usernameToId - {client.username};
      clients := clients - {id};
    }

    /**
     * Accepting a connection (server/src/main.rs): the client takes the next
     * id, the counter moves on, and the client is added under that id, which
     * no connected client had.
     */
    method Accept(abortHandle: AbortHandle) returns (id: U64)
      requires IdsValid() && nextClientId < U64_LIMIT - 1
      modifies this
      ensures IdsValid()
      ensures id == old(nextClientId) && id !in old(clients) && id !in old(abortHandles)
      ensures nextClientId == id + 1
      ensures clients == old(clients)[id := NewClient(id)]
      ensures abortHandles == old(abortHandles)[id := abortHandle]
      ensures usernameToId == old(usernameToId) && outbox == old(outbox)
    {
      id := GetNextId();
      IncrementId();
      var client := NewClient(id);
      AddNewClient(client, abortHandle);
    }
  }

  // ---------------------------------------------------------------------------
  // Properties
  // ---------------------------------------------------------------------------

  /** Distinct server errors display differently. */
  lemma ErrorTextInjective(a: ServerError, b: ServerError)
    ensures ErrorText(a) == ErrorText(b) ==> a == b
  {
  }
}
