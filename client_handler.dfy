/**
 * `handle_message` of client/src/client.rs: the same arms as the session
 * state of client/src/lib.rs, writing to the interface state instead and
 * reporting every error as a `MessageError`.
 */
module ClientHandler {
  import opened Wrappers
  import opened Text
  import opened WireText
  import opened Listing
  import opened ClientNotices
  import opened ClientTuiState

  datatype MessageError = InvalidCommand | InvalidMessage | CommandFailed(failedCmd: string)

  /** `Display for MessageError` */
  function ErrorText(e: MessageError): (s: string)
    ensures |s| > 0
  {
    match e
    case CommandFailed(failedCmd) => failedCmd + " failed"
    case InvalidMessage => "Invalid message received"
    case InvalidCommand => "Invalid response command found in message"
  }

  /** Distinct errors display differently. */
  lemma ErrorTextInjective(a: MessageError, b: MessageError)
    ensures ErrorText(a) == ErrorText(b) ==> a == b
  {
    var suffix := " failed";
    if ErrorText(a) == ErrorText(b) {
      var s := ErrorText(a);
      // " failed" ends in "led"; the other two texts end in "ved" and "age".
      assert a.CommandFailed? || b.CommandFailed? ==> s[|s| - 3] == 'l';
      if a.CommandFailed? && b.CommandFailed? {
        assert a.failedCmd == s[..|s| - |suffix|];
        assert b.failedCmd == s[..|s| - |suffix|];
      }
    }
  }

  /** A listing with content: the header, a line per comma-separated item, the footer. */
  method PushListing(state: State, header: string, content: string)
    modifies state
    ensures state.notifications ==
      old(state.notifications) + ListingLines(header, ListItems(content))
    ensures state.connectionStatus == old(state.connectionStatus)
    ensures state.currentServer == old(state.currentServer)
    ensures state.name == old(state.name) && state.exit == old(state.exit)
  {
    var items := if ',' in content then SplitOn(content, IsComma) else [content];
    assert items == ListItems(content);
    state.PushNotification(header);
    ghost var start := state.notifications;
    var i := 0;
    while i < |items|
      invariant 0 <= i <= |items|
      invariant state.notifications == start + Bracketed(items[..i])
      invariant state.connectionStatus == old(state.connectionStatus)
      invariant state.currentServer == old(state.currentServer)
      invariant state.name == old(state.name) && state.exit == old(state.exit)
    {
      BracketedSnoc(items, i);
      state.PushNotification("[" + items[i] + "]");
      i := i + 1;
    }
    assert items[..|items|] == items;
    ghost var lines := Bracketed(items);
    assert state.notifications == old(state.notifications) + [header] + lines;
    state.PushNotification(EndOfList);
    ListingLinesUnfold(header, items);
    AppendAssoc(old(state.notifications), [header], lines, [EndOfList]);
  }

  /** The `rooms`, `allrooms` and `users` arms. */
  method HandleListing(m: TextMessage, state: State)
    requires HandleDefined(m) && IsListingCommand(m.cmd)
    modifies state
    ensures state.notifications == old(state.notifications) + Notices(m)
    ensures state.connectionStatus == old(state.connectionStatus)
    ensures state.currentServer == old(state.currentServer)
    ensures state.name == old(state.name) && state.exit == old(state.exit)
  {
    if m.content.Some? {
      PushListing(state, ListingHeader(m.cmd), m.content.value);
    } else {
      state.PushNotification(EmptyListingNotice(m.cmd));
    }
  }

  /** The arms of `handle_message`, one per reply command. */
  method HandleReply(m: TextMessage, state: State) returns (r: Result<Unit, MessageError>)
    requires HandleDefined(m)
    modifies state
    ensures state.notifications == old(state.notifications) + Notices(m)
    ensures !IsReplyCommand(m.cmd) ==> r == Err(InvalidCommand)
    ensures m.cmd == "failed" ==> r == Err(CommandFailed(m.arg.value))
    ensures IsReplyCommand(m.cmd) && m.cmd != "failed" ==> r == Ok(Unit)
    ensures state.name == if NewName(m).Some? then NewName(m).value else old(state.name)
    ensures state.connectionStatus == old(state.connectionStatus)
    ensures state.currentServer == old(state.currentServer) && state.exit == old(state.exit)
  {
    r := Ok(Unit);
    match m.cmd
    case "registered" =>
      var registeredName := m.arg.value;
      // The id is parsed (and a malformed one panics) but not stored: the
      // interface state has no field for it.
      var id := ParseU64(m.content.value).value;
      state.SetName(registeredName);
      state.PushNotification("[+] Registered as [" + registeredName + "] #" + ToDecimal(id));
    case "joined" =>
      state.PushNotification("[+] Joined [" + m.arg.value + "] room");
    case "roommessage" =>
      state.PushNotification("[" + m.arg.value + "] " + m.sender + " #" + ToDecimal(m.id) + ": "
        + m.content.value);
    case "rooms" =>
      HandleListing(m, state);
    case "allrooms" =>
      HandleListing(m, state);
    case "users" =>
      HandleListing(m, state);
    case "createdroom" =>
      state.PushNotification("[+] Created [" + m.arg.value + "] room");
    case "leftroom" =>
      state.PushNotification("[+] Left [" + m.arg.value + "] room");
    case "incomingmsg" =>
      state.PushNotification("from [" + m.sender + "]: " + m.content.value);
    case "outgoingmsg" =>
      state.PushNotification("to [" + m.arg.value + "]: " + m.content.value);
    case "changedname" =>
      var newName := m.arg.value;
      var oldName := m.content.value;
      state.SetName(newName);
      state.PushNotification("[+] Changed name from [" + oldName + "] to [" + newName + "]");
    case "failed" =>
      var failedCmd := m.arg.value;
      var error := m.content.value;
      state.PushNotification("[-] \"" + failedCmd + "\" command failed: " + error);
      r := Err(CommandFailed(failedCmd));
    case _ =>
      r := Err(InvalidCommand);
  }

  /** `handle_message`: unpacks the text and runs the arm of its reply. */
  method HandleMessage(message: string, state: State) returns (r: Result<Unit, MessageError>)
    requires UnpackDefined(message)
    requires Unpack(message).Some? ==> HandleDefined(Unpack(message).value)
    modifies state
    ensures Unpack(message).None? ==> r == Err(InvalidMessage) && unchanged(state)
    ensures Unpack(message).Some? ==>
      var m := Unpack(message).value;
      && state.notifications == old(state.notifications) + Notices(m)
      && (!IsReplyCommand(m.cmd) ==> r == Err(InvalidCommand))
      && (m.cmd == "failed" ==> r == Err(CommandFailed(m.arg.value)))
      && (IsReplyCommand(m.cmd) && m.cmd != "failed" ==> r == Ok(Unit))
      && state.name == (if NewName(m).Some? then NewName(m).value else old(state.name))
      && state.connectionStatus == old(state.connectionStatus)
      && state.currentServer == old(state.currentServer) && state.exit == old(state.exit)
  {
    var unpacked := Unpack(message);
    if unpacked.None? {
      return Err(InvalidMessage);
    }
    r := HandleReply(unpacked.value, state);
  }
}
