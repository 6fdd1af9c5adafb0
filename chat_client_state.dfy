/**
 * The state of the second-generation client
 * (chatclient/src/state_handler/state.rs) and how it reacts to each typed
 * message from the server.
 */
module ChatClientState {
  import opened Wrappers
  import opened Text
  import opened Messages
  import opened Listing

  datatype ConnectionStatus = Unitiliazed | Established

  /** The notices a fresh client shows before anything happens. */
  const StartupNotices: seq<string> := [
    "---To quit use \"/quit\"---",
    "[*] No nickname set. To set one use the \"/name\" command",
    "    Example: /name jon",
    "[*] Not connected to server. To connect use \"/connect\" command",
    "    Example: /connect 127.0.0.1:6667",
    "[*] Server has one default [#main] room",
    "    To join use: /join main",
    "    To send message to server room: /sendto {room} {msg}",
    "    To change name on server use the \"/name\" command",
    "    Username must be unique on server",
    "    To list users: /list users",
    "[*] To list joined rooms: /list rooms",
    "[*] To leave a joinded room: /leave room",
    "[*] To list all rooms on server: /list allrooms",
    "[*] To create a new room: /create ",
    "[*] Private messages can be sent to users using \"/privmsg\"",
    "    Example: /privmsg jon message"
  ]

  const ConnectionClosed := "[-] Connection to server closed"
  const FailedRegistration := "Failed registration"

  /**
   * The messages `handle_message` can take without panicking: every field
   * its arm unwraps is present, and a `Registered` id parses as a `u64`.
   */
  predicate HandleDefined(m: Message) {
    var t, arg, content := m.header.messageType, m.body.arg, m.body.content;
    && (t in {Failed, Registered, ChangedName, RoomMessage, OutgoingMsg} ==>
          arg.Some? && content.Some?)
    && (t in {Joined, LeftRoom, CreatedRoom} ==> arg.Some?)
    && (t in {UserRooms, AllRooms, Users, IncomingMsg} ==> content.Some?)
    && (t == Registered ==> ParseU64(arg.value).Some?)
  }

  /** The header line of each kind of listing. */
  function ListingHeader(t: MessageType): string
    requires t in {UserRooms, AllRooms, Users}
  {
    match t
    case UserRooms => "[+] List of joined rooms"
    case AllRooms => "[+] List of all rooms"
    case Users => "[+] List of users"
  }

  /** The notices that one message appends, in order. */
  function Notices(m: Message): seq<string>
    requires HandleDefined(m)
  {
    var arg, content := m.body.arg, m.body.content;
    match m.header.messageType
    case Failed =>
      ["[-] " + arg.value + " failed: " + content.value]
        + (if arg.value == "register" then [ConnectionClosed] else [])
    case Registered => ["[+] Registered as " + content.value]
    case ChangedName =>
      ["[+] Name changed from \"" + content.value + "\" to \"" + arg.value + "\""]
    case UserRooms => ListingLines(ListingHeader(UserRooms), ListItems(content.value))
    case AllRooms => ListingLines(ListingHeader(AllRooms), ListItems(content.value))
    case Users => ListingLines(ListingHeader(Users), ListItems(content.value))
    case Joined => ["[+] Joined [" + arg.value + "] room"]
    case LeftRoom => ["[+] Left [" + arg.value + "] room"]
    case CreatedRoom => ["[+] Created [" + arg.value + "] room"]
    case RoomMessage => ["[" + arg.value + "] " + content.value]
    case IncomingMsg => [content.value]
    case OutgoingMsg => ["to " + arg.value + ": " + content.value]
    case _ => []
  }

  class ClientState {
    var connectionStatus: ConnectionStatus
    var currentServer: string
    var username: string
    var sessionId: U64
    var notifications: seq<string>
    var exit: bool

    /** `Default::default` */
    constructor ()
      ensures connectionStatus == Unitiliazed && currentServer == "" && username == ""
      ensures sessionId == U64_LIMIT - 1 && notifications == StartupNotices && !exit
    {
      connectionStatus := Unitiliazed;
      currentServer := "";
      username := "";
      sessionId := U64_LIMIT - 1;
      notifications := StartupNotices;
      exit := false;
    }

    method PushNotification(notification: string)
      modifies this
      ensures notifications == old(notifications) + [notification]
      ensures connectionStatus == old(connectionStatus) && currentServer == old(currentServer)
      ensures username == old(username) && sessionId == old(sessionId) && exit == old(exit)
    {
      notifications := notifications + [notification];
    }

    method Exit()
      modifies this
      ensures exit
      ensures connectionStatus == old(connectionStatus) && currentServer == old(currentServer)
      ensures username == old(username) && sessionId == old(sessionId)
      ensures notifications == old(notifications)
    {
      exit := true;
    }

    method TerminateConnection()
      modifies this
      ensures connectionStatus == Unitiliazed
      ensures currentServer == old(currentServer) && exit == old(exit)
      ensures username == old(username) && sessionId == old(sessionId)
      ensures notifications == old(notifications)
    {
      connectionStatus := Unitiliazed;
    }

    /** One listing arm: the header, a line per comma-separated item, the footer. */
    method PushListing(header: string, content: string)
      modifies this
      ensures notifications == old(notifications) + ListingLines(header, ListItems(content))
      ensures connectionStatus == old(connectionStatus) && currentServer == old(currentServer)
      ensures username == old(username) && sessionId == old(sessionId) && exit == old(exit)
    {
      var items := if ',' in content then SplitOn(content, IsComma) else [content];
      assert items == ListItems(content);
      notifications := notifications + [header];
      ghost var start := notifications;
      var i := 0;
      while i < |items|
        invariant 0 <= i <= |items|
        invariant notifications == start + Bracketed(items[..i])
        invariant connectionStatus == old(connectionStatus) && currentServer == old(currentServer)
        invariant username == old(username) && sessionId == old(sessionId) && exit == old(exit)
      {
        BracketedSnoc(items, i);
        notifications := notifications + ["[" + items[i] + "]"];
        i := i + 1;
      }
      assert items[..|items|] == items;
      ghost var lines := Bracketed(items);
      assert notifications == old(notifications) + [header] + lines;
      notifications := notifications + [EndOfList];
      ListingLinesUnfold(header, items);
      AppendAssoc(old(notifications), [header], lines, [EndOfList]);
    }

    /**
     * `handle_message`: appends the message's notices and updates the
     * session; a failed registration also drops the connection and is the
     * only error.
     */
    method HandleMessage(message: Message) returns (r: Result<Unit, string>)
      requires HandleDefined(message)
      modifies this
      ensures notifications == old(notifications) + Notices(message)
      ensures r.Err? <==>
        message.header.messageType == Failed && message.body.arg.value == "register"
      ensures r.Err? ==> r.error == FailedRegistration
      ensures connectionStatus == if r.Err? then Unitiliazed else old(connectionStatus)
      ensures sessionId == if message.header.messageType == Registered
        then ParseU64(message.body.arg.value).value else old(sessionId)
      ensures username == match message.header.messageType
        case Registered => message.body.content.value
        case ChangedName => message.body.arg.value
        case _ => old(username)
      ensures currentServer == old(currentServer) && exit == old(exit)
    {
      r := Ok(Unit);
      var body := message.body;
      match message.header.messageType
      case Failed =>
        var failedCmd := body.arg.value;
        var error := body.content.value;
        PushNotification("[-] " + failedCmd + " failed: " + error);
        if failedCmd == "register" {
          TerminateConnection();
          PushNotification(ConnectionClosed);
          return Err(FailedRegistration);
        }
      case Registered =>
        var givenId := body.arg.value;
        var name := body.content.value;
        sessionId := ParseU64(givenId).value;
        username := name;
        PushNotification("[+] Registered as " + name);
      case ChangedName =>
        var newUsername := body.arg.value;
        var oldUsername := body.content.value;
        username := newUsername;
        PushNotification("[+] Name changed from \"" + oldUsername + "\" to \"" + newUsername + "\"");
      case UserRooms =>
        PushListing(ListingHeader(UserRooms), body.content.value);
      case AllRooms =>
        PushListing(ListingHeader(AllRooms), body.content.value);
      case Users =>
        PushListing(ListingHeader(Users), body.content.value);
      case Joined =>
        PushNotification("[+] Joined [" + body.arg.value + "] room");
      case LeftRoom =>
        PushNotification("[+] Left [" + body.arg.value + "] room");
      case CreatedRoom =>
        PushNotification("[+] Created [" + body.arg.value + "] room");
      case RoomMessage =>
        PushNotification("[" + body.arg.value + "] " + body.content.value);
      case IncomingMsg =>
        PushNotification(body.content.value);
      case OutgoingMsg =>
        PushNotification("to " + body.arg.value + ": " + body.content.value);
      case _ =>
    }
  }

  // ---------------------------------------------------------------------------
  // Properties
  // ---------------------------------------------------------------------------

  /**
   * A message that passes `check_message` has every field the arms unwrap;
   * only the parse of a `Registered` id can still fail.
   */
  lemma CheckedMessagesAreHandled(m: Message)
    requires CheckMessage(m).Ok?
    ensures HandleDefined(m) <==>
      (m.header.messageType == Registered ==> ParseU64(m.body.arg.value).Some?)
  {
    GroupsPartition(m.header.messageType);
  }

  /** A listing of `n` items appends `n + 2` notices, and the item lines in order. */
  lemma ListingNotices(m: Message)
    requires HandleDefined(m) && m.header.messageType in {UserRooms, AllRooms, Users}
    ensures var items := ListItems(m.body.content.value);
      && |Notices(m)| == |items| + 2
      && Notices(m)[0] == ListingHeader(m.header.messageType)
      && Notices(m)[|items| + 1] == EndOfList
      && forall i :: 0 <= i < |items| ==> Notices(m)[i + 1] == "[" + items[i] + "]"
  {
    ListingLinesShape(ListingHeader(m.header.messageType), ListItems(m.body.content.value));
  }

  /** The message types the client does not handle append nothing. */
  lemma UnhandledTypesAppendNothing(m: Message)
    requires m.header.messageType in
      {Register, Join, Leave, List, ChangeName, Create, PrivMsg, SendTo, MessagedRoom}
    ensures HandleDefined(m) && Notices(m) == []
  {
  }
}
