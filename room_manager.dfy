/**
 * The room table of the second-generation server
 * (chatserver/src/room/room_manager.rs). A room's broadcast channel is not
 * modelled; a room is known by its name.
 */
module RoomManager {
  import opened Wrappers

  datatype Room = Room(name: string)

  /** A member's handle on a room's broadcast channel, named by the room it sends to. */
  datatype UserHandle = UserHandle(room: string)

  const FailedToJoin := "Failed to join room"

  /** The rooms keyed by their names; a later room replaces an earlier one of the same name. */
  function KeyedByName(rooms: seq<Room>): map<string, Room> {
    if rooms == [] then map[]
    else KeyedByName(rooms[..|rooms| - 1])[rooms[|rooms| - 1].name := rooms[|rooms| - 1]]
  }

  /** Each room is keyed by its own name. */
  lemma {:induction false} KeyedByNameOwnName(rooms: seq<Room>, n: string)
    requires n in KeyedByName(rooms)
    ensures KeyedByName(rooms)[n].name == n
  {
    var init := rooms[..|rooms| - 1];
    if n != rooms[|rooms| - 1].name {
      KeyedByNameOwnName(init, n);
    }
  }

  /** A name is a key exactly when some supplied room carries it. */
  lemma {:induction false} KeyedByNameKeys(rooms: seq<Room>, n: string)
    ensures n in KeyedByName(rooms) <==> exists i :: 0 <= i < |rooms| && rooms[i].name == n
  {
    if rooms != [] {
      var init := rooms[..|rooms| - 1];
      KeyedByNameKeys(init, n);
      if exists i :: 0 <= i < |init| && init[i].name == n {
        var i :| 0 <= i < |init| && init[i].name == n;
        assert rooms[i] == init[i];
      }
      if exists i :: 0 <= i < |rooms| && rooms[i].name == n {
        var i :| 0 <= i < |rooms| && rooms[i].name == n;
        if i < |init| {
          assert init[i] == rooms[i];
        }
      }
    }
  }

  class RoomManager {
    var rooms: map<string, Room>

    /** `new`: each supplied room under its own name. */
    constructor (initial: seq<Room>)
      ensures rooms == KeyedByName(initial)
    {
      var built: map<string, Room> := map[];
      var i := 0;
      while i < |initial|
        invariant 0 <= i <= |initial|
        invariant built == KeyedByName(initial[..i])
      {
        assert initial[..i + 1][..i] == initial[..i];
        built := built[initial[i].name := initial[i]];
        i := i + 1;
      }
      assert initial[..|initial|] == initial;
      rooms := built;
    }

    /** `add_room`: inserts or replaces the room under `name`, and nothing else. */
    method AddRoom(room: Room, name: string)
      modifies this
      ensures rooms == old(rooms)[name := room]
      ensures name in GetRooms()
    {
      rooms := rooms[name := room];
    }

    /** `join`: a handle on the named room, or an error when there is none; the table is untouched. */
    method Join(room: string) returns (r: Result<UserHandle, string>)
      ensures r.Err? <==> room !in rooms
      ensures r.Err? ==> r.error == FailedToJoin
      ensures r.Ok? ==> r.value == UserHandle(room)
    {
      if room in rooms {
        r := Ok(UserHandle(room));
      } else {
        r := Err(FailedToJoin);
      }
    }

    /** `get_rooms`: the names of all rooms. */
    function GetRooms(): (names: set<string>)
      reads this
      ensures forall n :: n in names <==> n in rooms
    {
      rooms.Keys
    }
  }
}
