/**
 * The session state of the first-generation client (client/src/lib.rs): the
 * notices it shows, who it is on the server, and how it reacts to each text
 * message the server sends.
 */
module ClientLib {
  import opened Wrappers
  import opened Text
  import opened WireText
  import opened Listing
  import opened ClientNotices
  import ChatClientState

  /** `MessageError`: a reply that is no message, or whose command is unknown. */
  datatype MessageError = InvalidCommand | InvalidMessage

  /** `ClientError`: the server reports that a command failed. */
  datatype ClientError = CommandFailed(failedCmd: string)

  /** The error `handle_message` returns, one of the two kinds above. */
  datatype HandleError = MessageErr(m: MessageError) | ClientErr(c: ClientError)

  function MessageErrorText(e: MessageError): (s: string)
    ensures |s| > 0
  {
    match e
    case InvalidMessage => "Invalid message received"
    case InvalidCommand => "Invalid response command found in message"
  }

  function ClientErrorText(e: ClientError): (s: string)
    ensures |s| >= |"Command failed: "| && s[..|"Command failed: "|] == "Command failed: "
  {
    "Command failed: " + e.failedCmd
  }

  /** Distinct errors display differently, so the text names the error. */
  lemma ErrorTextsDistinct(a: ClientError, b: ClientError, e: MessageError, f: MessageError)
    ensures ClientErrorText(a) == ClientErrorText(b) ==> a == b
    ensures MessageErrorText(e) == MessageErrorText(f) ==> e == f
    ensures MessageErrorText(e) != ClientErrorText(a)
  {
    var p := "Command failed: ";
    if ClientErrorText(a) == ClientErrorText(b) {
      assert a.failedCmd == ClientErrorText(a)[|p|..];
      assert b.failedCmd == ClientErrorText(b)[|p|..];
    }
    assert MessageErrorText(e)[0] == 'I' && ClientErrorText(a)[0] == 'C';
  }

  class ClientState {
    var connectionStatus: ChatClientState.ConnectionStatus
    var currentServer: string
    var username: string
    var sessionId: U64
    var notifications: seq<string>
    var exit: bool

    /** `Default::default`: the same startup notices as the second-generation client. */
    constructor ()
      ensures connectionStatus == ChatClientState.Unitiliazed
      ensures currentServer == "" && username == "" && sessionId == U64_LIMIT - 1
      ensures notifications == ChatClientState.StartupNotices && !exit
    {
      connectionStatus := ChatClientState.Unitiliazed;
      currentServer := "";
      username := "";
      sessionId := U64_LIMIT - 1;
      notifications := ChatClientState.StartupNotices;
      exit := false;
    }

    method PushNotification(notification: string)
      modifies this
      ensures notifications == old(notifications) + [notification]
      ensures connectionStatus == old(connectionStatus) && currentServer == old(currentServer)
      ensures username == old(username) && sessionId == old(sessionId) && exit == old(exit)
    {
      notifications := notifications + [notification];
    }

    method Exit()
      modifies this
      ensures exit
      ensures connectionStatus == old(connectionStatus) && currentServer == old(currentServer)
      ensures username == old(username) && sessionId == old(sessionId)
      ensures notifications == old(notifications)
    {
      exit := true;
    }

    method TerminateConnection()
      modifies this
      ensures connectionStatus == ChatClientState.Unitiliazed
      ensures currentServer == old(currentServer) && exit == old(exit)
      ensures username == old(username) && sessionId == old(sessionId)
      ensures notifications == old(notifications)
    {
      connectionStatus := ChatClientState.Unitiliazed;
    }

    /**
     * `handle_failure`: a failed registration closes the connection and drops
     * its handle; any other failure keeps both.
     */
    method HandleFailure<H>(failedCmd: string, connectionHandle: Option<H>) returns (r: Option<H>)
      modifies this
      ensures failedCmd == "register" ==>
        r.None? && connectionStatus == ChatClientState.Unitiliazed
        && notifications == old(notifications) + [ChatClientState.ConnectionClosed]
      ensures failedCmd != "register" ==>
        r == connectionHandle && connectionStatus == old(connectionStatus)
        && notifications == old(notifications)
      ensures currentServer == old(currentServer) && exit == old(exit)
      ensures username == old(username) && sessionId == old(sessionId)
    {
      if failedCmd == "register" {
        TerminateConnection();
        PushNotification(ChatClientState.ConnectionClosed);
        return None;
      }
      r := connectionHandle;
    }

    /** One listing arm with content: the header, a line per item, the footer. */
    method PushListing(header: string, content: string)
      modifies this
      ensures notifications == old(notifications) + ListingLines(header, ListItems(content))
      ensures connectionStatus == old(connectionStatus) && currentServer == old(currentServer)
      ensures username == old(username) && sessionId == old(sessionId) && exit == old(exit)
    {
      var items := if ',' in content then SplitOn(content, IsComma) else [content];
      assert items == ListItems(content);
      notifications := notifications + [header];
      ghost var start := notifications;
      var i := 0;
      while i < |items|
        invariant 0 <= i <= |items|
        invariant notifications == start + Bracketed(items[..i])
        invariant connectionStatus == old(connectionStatus) && currentServer == old(currentServer)
        invariant username == old(username) && sessionId == old(sessionId) && exit == old(exit)
      {
        BracketedSnoc(items, i);
        notifications := notifications + ["[" + items[i] + "]"];
        i := i + 1;
      }
      assert items[..|items|] == items;
      ghost var lines := Bracketed(items);
      assert notifications == old(notifications) + [header] + lines;
      notifications := notifications + [EndOfList];
      ListingLinesUnfold(header, items);
      AppendAssoc(old(notifications), [header], lines, [EndOfList]);
    }

    /**
     * `handle_message`: unpacks the text and runs the arm of its reply. A
     * text that is no message is an error and changes nothing.
     */
    method HandleMessage(message: string) returns (r: Result<Unit, HandleError>)
      requires UnpackDefined(message)
      requires Unpack(message).Some? ==> HandleDefined(Unpack(message).value)
      modifies this
      ensures Unpack(message).None? ==>
        r == Err(MessageErr(InvalidMessage)) && unchanged(this)
      ensures Unpack(message).Some? ==>
        var m := Unpack(message).value;
        && notifications == old(notifications) + Notices(m)
        && (!IsReplyCommand(m.cmd) ==> r == Err(MessageErr(InvalidCommand)))
        && (m.cmd == "failed" ==> r == Err(ClientErr(CommandFailed(m.arg.value))))
        && (IsReplyCommand(m.cmd) && m.cmd != "failed" ==> r == Ok(Unit))
        && username == (if NewName(m).Some? then NewName(m).value else old(username))
        && sessionId == (if m.cmd == "registered" then RegisteredId(m) else old(sessionId))
        && connectionStatus == old(connectionStatus)
        && currentServer == old(currentServer) && exit == old(exit)
    {
      var unpacked := Unpack(message);
      if unpacked.None? {
        return Err(MessageErr(InvalidMessage));
      }
      r := HandleReply(unpacked.value);
    }

    /** The arms of `handle_message`, one per reply command. */
    method HandleReply(m: TextMessage) returns (r: Result<Unit, HandleError>)
      requires HandleDefined(m)
      modifies this
      ensures notifications == old(notifications) + Notices(m)
      ensures !IsReplyCommand(m.cmd) ==> r == Err(MessageErr(InvalidCommand))
      ensures m.cmd == "failed" ==> r == Err(ClientErr(CommandFailed(m.arg.value)))
      ensures IsReplyCommand(m.cmd) && m.cmd != "failed" ==> r == Ok(Unit)
      ensures username == if NewName(m).Some? then NewName(m).value else old(username)
      ensures sessionId == if m.cmd == "registered" then RegisteredId(m) else old(sessionId)
      ensures connectionStatus == old(connectionStatus)
      ensures currentServer == old(currentServer) && exit == old(exit)
    {
      r := Ok(Unit);
      match m.cmd
      case "registered" =>
        var registeredName := m.arg.value;
        var id := ParseU64(m.content.value).value;
        username := registeredName;
        sessionId := id;
        PushNotification("[+] Registered as [" + registeredName + "] #" + ToDecimal(id));
      case "joined" =>
        PushNotification("[+] Joined [" + m.arg.value + "] room");
      case "roommessage" =>
        PushNotification("[" + m.arg.value + "] " + m.sender + " #" + ToDecimal(m.id) + ": "
          + m.content.value);
      case "rooms" =>
        HandleListing(m);
      case "allrooms" =>
        HandleListing(m);
      case "users" =>
        HandleListing(m);
      case "createdroom" =>
        PushNotification("[+] Created [" + m.arg.value + "] room");
      case "leftroom" =>
        PushNotification("[+] Left [" + m.arg.value + "] room");
      case "incomingmsg" =>
        PushNotification("from [" + m.sender + "]: " + m.content.value);
      case "outgoingmsg" =>
        PushNotification("to [" + m.arg.value + "]: " + m.content.value);
      case "changedname" =>
        var newName := m.arg.value;
        var oldName := m.content.value;
        username := newName;
        PushNotification("[+] Changed name from [" + oldName + "] to [" + newName + "]");
      case "failed" =>
        var failedCmd := m.arg.value;
        var error := m.content.value;
        PushNotification("[-] \"" + failedCmd + "\" command failed: " + error);
        r := Err(ClientErr(CommandFailed(failedCmd)));
      case _ =>
        r := Err(MessageErr(InvalidCommand));
    }

    /** The `rooms`, `allrooms` and `users` arms. */
    method HandleListing(m: TextMessage)
      requires HandleDefined(m) && IsListingCommand(m.cmd)
      modifies this
      ensures notifications == old(notifications) + Notices(m)
      ensures connectionStatus == old(connectionStatus) && currentServer == old(currentServer)
      ensures username == old(username) && sessionId == old(sessionId) && exit == old(exit)
    {
      if m.content.Some? {
        PushListing(ListingHeader(m.cmd), m.content.value);
      } else {
        PushNotification(EmptyListingNotice(m.cmd));
      }
    }
  }
}
