/**
 * The typed message of the second-generation client and server
 * (common/src/message.rs): a header with the message type and the sender's
 * id, a body with an optional argument and an optional content, and the
 * shape check that every built or decoded message must pass.
 */
module Messages {
  import opened Wrappers
  import opened Text

  datatype MessageType =
    | Register
    | Registered
    | Join
    | Joined
    | Leave
    | LeftRoom
    | List
    | ChangeName
    | ChangedName
    | Create
    | CreatedRoom
    | PrivMsg
    | IncomingMsg
    | OutgoingMsg
    | SendTo
    | MessagedRoom
    | RoomMessage
    | UserRooms
    | AllRooms
    | Users
    | Failed

  datatype MessageHeader = MessageHeader(messageType: MessageType, senderId: U64)

  datatype MessageBody = MessageBody(arg: Option<string>, content: Option<string>)

  datatype Message = Message(header: MessageHeader, body: MessageBody)

  /** The types that carry an argument and no content. */
  const ArgOnlyTypes: set<MessageType> :=
    {Join, ChangeName, Leave, List, Create, Register, Joined, LeftRoom, CreatedRoom}

  /** The types that carry both an argument and a content. */
  const ArgContentTypes: set<MessageType> :=
    {SendTo, PrivMsg, RoomMessage, Registered, Failed, ChangedName, MessagedRoom, OutgoingMsg}

  /** The types that carry a content and no argument. */
  const ContentOnlyTypes: set<MessageType> :=
    {IncomingMsg, AllRooms, UserRooms, Users}

  const ArgRequired := "Argument required"
  const ContentUnnecessary := "Unecessary content provided"
  const ContentRequired := "Content required"
  const ArgUnnecessary := "Uncessary argument provided"

  /** The presence of argument and content that a message type calls for. */
  predicate HasShapeOf(t: MessageType, arg: Option<string>, content: Option<string>) {
    if t in ArgOnlyTypes then arg.Some? && content.None?
    else if t in ArgContentTypes then arg.Some? && content.Some?
    else arg.None? && content.Some?
  }

  /** Whether the argument alone is as the type calls for (the check made first). */
  predicate ArgAsRequired(t: MessageType, arg: Option<string>) {
    if t in ContentOnlyTypes then arg.None? else arg.Some?
  }

  /**
   * `check_message`: the argument is checked before the content, so a
   * message wrong in both reports the argument error.
   */
  function CheckMessage(m: Message): (r: Result<Unit, string>)
    ensures r.Ok? <==> HasShapeOf(m.header.messageType, m.body.arg, m.body.content)
    ensures !ArgAsRequired(m.header.messageType, m.body.arg) ==>
      r == Err(if m.header.messageType in ContentOnlyTypes then ArgUnnecessary else ArgRequired)
    ensures ArgAsRequired(m.header.messageType, m.body.arg) && r.Err? ==>
      r == Err(if m.header.messageType in ArgOnlyTypes then ContentUnnecessary else ContentRequired)
  {
    var arg, content := m.body.arg, m.body.content;
    match m.header.messageType
    case Join | ChangeName | Leave | List | Create | Register | Joined | LeftRoom | CreatedRoom =>
      if arg.None? then Err(ArgRequired)
      else if content.Some? then Err(ContentUnnecessary)
      else Ok(Unit)
    case SendTo | PrivMsg | RoomMessage | Registered | Failed | ChangedName | MessagedRoom
      | OutgoingMsg =>
      if arg.None? then Err(ArgRequired)
      else if content.None? then Err(ContentRequired)
      else Ok(Unit)
    case IncomingMsg | AllRooms | UserRooms | Users =>
      if arg.Some? then Err(ArgUnnecessary)
      else if content.None? then Err(ContentRequired)
      else Ok(Unit)
  }

  /** `Message::build`: the record with exactly the given fields, if it passes the check. */
  function Build(t: MessageType, senderId: U64, arg: Option<string>, content: Option<string>)
    : (r: Result<Message, string>)
    ensures r.Ok? <==> HasShapeOf(t, arg, content)
    ensures r.Ok? ==> r.value == Message(MessageHeader(t, senderId), MessageBody(arg, content))
    ensures r.Err? ==>
      r.error == CheckMessage(Message(MessageHeader(t, senderId), MessageBody(arg, content))).error
    ensures !ArgAsRequired(t, arg) ==>
      r == Err(if t in ContentOnlyTypes then ArgUnnecessary else ArgRequired)
    ensures ArgAsRequired(t, arg) && r.Err? ==>
      r == Err(if t in ArgOnlyTypes then ContentUnnecessary else ContentRequired)
  {
    var message := Message(MessageHeader(t, senderId), MessageBody(arg, content));
    match CheckMessage(message)
    case Err(e) => Err(e)
    case Ok(_) => Ok(message)
  }

  /**
   * The validating half of `Message::from_bytes`: `decoded` is what the
   * postcard decoder produced, an error or a message.
   */
  function FromDecoded(decoded: Result<Message, string>): (r: Result<Message, string>)
    ensures r.Ok? ==> decoded == Ok(r.value) && CheckMessage(r.value).Ok?
    ensures decoded.Ok? && CheckMessage(decoded.value).Ok? ==> r == decoded
    ensures decoded.Ok? && CheckMessage(decoded.value).Err? ==>
      r == Err(CheckMessage(decoded.value).error)
    ensures decoded.Err? ==> r == decoded
  {
    match decoded
    case Err(e) => Err(e)
    case Ok(message) =>
      match CheckMessage(message)
      case Err(e) => Err(e)
      case Ok(_) => Ok(message)
  }

  /** Every message type is in exactly one of the three groups. */
  lemma GroupsPartition(t: MessageType)
    ensures t in ArgOnlyTypes || t in ArgContentTypes || t in ContentOnlyTypes
    ensures t in ArgOnlyTypes ==> t !in ArgContentTypes && t !in ContentOnlyTypes
    ensures t in ArgContentTypes ==> t !in ContentOnlyTypes
  {
  }
}
