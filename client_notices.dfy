/**
 * What the first-generation client shows for each reply of the server. The
 * two copies of `handle_message` (client/src/lib.rs and client/src/client.rs)
 * push the same notices, panic on the same inputs and differ only in the
 * state they write to and in their error values, so the notices are stated
 * once here.
 */
module ClientNotices {
  import opened Wrappers
  import opened Text
  import opened WireText
  import opened Listing

  /** The reply commands `handle_message` has an arm for. */
  predicate IsReplyCommand(cmd: string) {
    cmd in {"registered", "joined", "roommessage", "rooms", "allrooms", "users",
            "createdroom", "leftroom", "incomingmsg", "outgoingmsg", "changedname", "failed"}
  }

  /** The listing replies, which carry their items as comma-separated content. */
  predicate IsListingCommand(cmd: string) {
    cmd in {"rooms", "allrooms", "users"}
  }

  /**
   * The messages whose arm runs without panicking: each field it unwraps is
   * present, and the id in a `registered` reply parses as a `u64`.
   */
  predicate HandleDefined(m: TextMessage) {
    && (m.cmd in {"registered", "roommessage", "outgoingmsg", "changedname", "failed"} ==>
          m.arg.Some? && m.content.Some?)
    && (m.cmd in {"joined", "createdroom", "leftroom"} ==> m.arg.Some?)
    && (m.cmd == "incomingmsg" ==> m.content.Some?)
    && (m.cmd == "registered" ==> ParseU64(m.content.value).Some?)
  }

  /** The header of a non-empty listing. */
  function ListingHeader(cmd: string): string
    requires IsListingCommand(cmd)
  {
    if cmd == "rooms" then "[+] List of joined rooms:"
    else if cmd == "allrooms" then "[+] List of all rooms:"
    else "[+] List of server users:"
  }

  /** The single notice of a listing reply without content. */
  function EmptyListingNotice(cmd: string): string
    requires IsListingCommand(cmd)
  {
    if cmd == "rooms" then "[-] No joined rooms"
    else if cmd == "allrooms" then "[-] No rooms"
    else "[-] No users in sever"
  }

  /** The id a `registered` reply assigns. */
  function RegisteredId(m: TextMessage): U64
    requires m.cmd == "registered" && HandleDefined(m)
  {
    ParseU64(m.content.value).value
  }

  /** The notices the arm for `m` pushes, in order. */
  function Notices(m: TextMessage): seq<string>
    requires HandleDefined(m)
  {
    var cmd := m.cmd;
    if cmd == "registered" then
      ["[+] Registered as [" + m.arg.value + "] #" + ToDecimal(RegisteredId(m))]
    else if cmd == "joined" then ["[+] Joined [" + m.arg.value + "] room"]
    else if cmd == "roommessage" then
      ["[" + m.arg.value + "] " + m.sender + " #" + ToDecimal(m.id) + ": " + m.content.value]
    else if IsListingCommand(cmd) then
      if m.content.Some? then ListingLines(ListingHeader(cmd), ListItems(m.content.value))
      else [EmptyListingNotice(cmd)]
    else if cmd == "createdroom" then ["[+] Created [" + m.arg.value + "] room"]
    else if cmd == "leftroom" then ["[+] Left [" + m.arg.value + "] room"]
    else if cmd == "incomingmsg" then ["from [" + m.sender + "]: " + m.content.value]
    else if cmd == "outgoingmsg" then ["to [" + m.arg.value + "]: " + m.content.value]
    else if cmd == "changedname" then
      ["[+] Changed name from [" + m.content.value + "] to [" + m.arg.value + "]"]
    else if cmd == "failed" then
      ["[-] \"" + m.arg.value + "\" command failed: " + m.content.value]
    else []
  }

  /** The name the session takes after `m`, if `m` changes it. */
  function NewName(m: TextMessage): Option<string>
    requires HandleDefined(m)
  {
    if m.cmd == "registered" || m.cmd == "changedname" then Some(m.arg.value) else None
  }

  // ---------------------------------------------------------------------------
  // Properties
  // ---------------------------------------------------------------------------

  /**
   * Of the messages `unpack_message` can return, the handler panics only on a
   * `registered` reply whose content is no number and on an `incomingmsg`
   * without content: the command word already guarantees every other field.
   */
  lemma UnpackedMessagesAreHandled(m: TextMessage)
    requires IsPackable(m)
    ensures HandleDefined(m) <==>
      && (m.cmd == "registered" ==> ParseU64(m.content.value).Some?)
      && (m.cmd == "incomingmsg" ==> m.content.Some?)
  {
    CommandGroupsDisjoint(m.cmd);
  }

  /** Every reply the handler knows pushes at least one notice; the others push none. */
  lemma NoticesOfReplies(m: TextMessage)
    requires HandleDefined(m)
    ensures IsReplyCommand(m.cmd) <==> |Notices(m)| >= 1
  {
  }

  /**
   * A `registered` reply as the server packs it (the user name as argument,
   * the id in decimal as content) reaches the client intact: the client takes
   * that id and shows it back in decimal.
   */
  lemma RegisteredReply(m: TextMessage, name: string, sender: string, id: U64)
    requires m == TextMessage("registered", Some(name), sender, 0, Some(ToDecimal(id)))
    requires IsField(name) && IsField(sender)
    ensures UnpackDefined(Packed(m)) && Unpack(Packed(m)) == Some(m)
    ensures HandleDefined(m) && RegisteredId(m) == id && NewName(m) == Some(name)
    ensures Notices(m) == ["[+] Registered as [" + name + "] #" + ToDecimal(id)]
  {
    var d := ToDecimal(id);
    forall k | 0 <= k < |d| ensures !IsHash(d[k]) {
      assert IsDigit(d[k]);
    }
    assert ArgContentCommand("registered");
    RoundTrip(m);
    ParseToDecimal(id);
  }

  /**
   * A listing with content shows one bracketed line per comma-separated item
   * between its header and the footer; without content it shows one notice.
   */
  lemma ListingNotices(m: TextMessage)
    requires HandleDefined(m) && IsListingCommand(m.cmd)
    ensures m.content.None? ==> Notices(m) == [EmptyListingNotice(m.cmd)]
    ensures m.content.Some? ==>
      var items := SplitOn(m.content.value, IsComma);
      && |Notices(m)| == |items| + 2
      && Notices(m)[0] == ListingHeader(m.cmd)
      && Notices(m)[|items| + 1] == EndOfList
      && forall i :: 0 <= i < |items| ==> Notices(m)[i + 1] == "[" + items[i] + "]"
  {
    if m.content.Some? {
      ListingLinesShape(ListingHeader(m.cmd), ListItems(m.content.value));
    }
  }
}
