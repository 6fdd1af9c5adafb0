# clichat-rust, modelled in Dafny

clichat-rust is a terminal chat system with two generations.

- **First generation** (crates `common`, `client`, `server`). Client and server exchange text frames of the form `!#cmd#arg#sender#id#content#!`. `pack_message` and `unpack_message` in common/src/lib.rs write and read them. The server (server/src/lib.rs) keeps a table of clients and a map from user names to client ids. The client has two copies of the reply handler: the session state in client/src/lib.rs and the interface state in client/src/client.rs.
- **Second generation** (crates `chatclient`, `chatserver`). Both sides exchange a typed `Message`, which is a header (type and sender id) plus an optional argument and an optional content. `check_message` in common/src/message.rs decides which type needs which field.
  - The server (chatserver/src/server) holds two maps of user names and ids, one session per connection, and a `RoomManager` of named rooms.
  - The server handles nine events (register, change name, list, join, leave, create, send to a room, private message, drop session). Each event sends at most one reply, which `handle_session` turns back into a `Message` for the client. DropSession never replies. Register and ChangeName with a free name, JoinRoom, LeaveRoom, SendTo and a `rooms` listing send nothing when their session is missing.
  - The client's state (chatclient/src/state_handler/state.rs) turns each reply into lines of notices.
- Both clients parse slash commands typed by the user (`parse_command` in both action.rs files). The first-generation input box edits a line of text with a character cursor over UTF-8 byte offsets.

The project is in the following modules:

| module | file | models |
|---|---|---|
| `Text` | text.dfy | `split`, `split_whitespace`, `join`, `trim`, `to_string` and `parse::<u64>` on the strings the sources use |
| `WireText` | wire_text.dfy | the first-generation text frame |
| `Messages` | message.dfy | the second-generation `Message` and `check_message` |
| `MessageQueue` | message_queue.dfy | the double-ended message queue |
| `ChatAction`, `ClientAction` | chat_action.dfy, client_action.dfy | the two command parsers |
| `InputBox` | input_box.dfy | the first-generation input box |
| `Listing` | listing.dfy | the comma-separated listings both clients print |
| `ChatClientState` | chat_client_state.dfy | the second-generation client state |
| `ClientNotices`, `ClientLib`, `ClientHandler`, `ClientTuiState` | client_notices.dfy, client_lib.dfy, client_handler.dfy, client_tui_state.dfy | the first-generation client |
| `ServerState` | server_state.dfy | the first-generation server state |
| `RoomManager` | room_manager.dfy | the second-generation room table |
| `ChatServer` | chat_server.dfy | the second-generation server |

Stateful parts are classes whose methods are proved against pure functions:

- The message queue, the input box, both client states and both servers are classes.
- The second-generation server is specified by a value, `Tables`, and one function per event, `Step`. `Server.HandleEvent` is proved to move its fields exactly as `Step` says, and the lemmas about the server are stated about `Step`.
- A `HashMap` yields its keys in an order the program does not fix. The model keeps that order as a ghost sequence that lists every key exactly once.

`u64` is modelled by the subset type `Text.U64`. The first-generation `id += 1` and the second-generation `next_client_id += 1` are allowed only below `u64::MAX`, which is where a debug build would panic.

## Model

| member | source | states |
|---|---|---|
| Text.JoinRemaining | chatclient/src/state_handler/action.rs:54-59 | the `message += part; message += " "` loop followed by `trim` gives the remaining words joined by single spaces, and gives the empty string exactly when no word remains |
| Text.SplitJoin | common/src/lib.rs:39 | joining pieces that are free of the separator and splitting again gives the pieces back |
| Text.JoinSplit | common/src/lib.rs:39 | splitting on one character and joining with it again gives the input back |
| Text.WordsAreWords | chatclient/src/state_handler/action.rs:17 | every piece `split_whitespace` yields is non-empty and holds no whitespace |
| Text.WordsExtraWhitespace | chatclient/src/state_handler/action.rs:17 | a doubled whitespace character changes no word |
| Text.TrimSpaced | chatclient/src/state_handler/action.rs:54-58 | trimming the words each followed by a space gives the words joined by single spaces |
| Text.ToDecimal | common/src/lib.rs:22 | `to_string` of an id is a non-empty run of digits without a leading zero |
| Text.DecimalValueOfToDecimal | common/src/lib.rs:22 | the digits `to_string` writes denote the number written |
| Text.ParseToDecimal | common/src/lib.rs:50 | `parse::<u64>` gives back every `u64` that `to_string` wrote |
| Text.ParseU64Rejects | common/src/lib.rs:50 | a string holding a non-digit after its first character does not parse |
| Text.JoinKeys | chatserver/src/server/server_events.rs:129-137 | collecting the keys of a map and joining them with commas lists every key exactly once, in some order |
| WireText.PackMessage | common/src/lib.rs:10-30 | pushing the pieces one after another builds the packed form, which starts with `!#` and the command and ends with `#!` |
| WireText.PackedPieces | common/src/lib.rs:14-26 | the argument and content are written, each after a `#`, only when present; the sender and decimal id are always written |
| WireText.PackedFraming | common/src/lib.rs:11-12 | the packed form starts with `!#` and the command and ends with `#!` |
| WireText.PackedTokens | common/src/lib.rs:38-39 | splitting the framed inside on `#` and dropping empty pieces gives exactly the present fields in order |
| WireText.FromTokens | common/src/lib.rs:42-100 | an arm gives a message only when the token count fits its command group; that message has the group's fields, and the command and every field are tokens of the input |
| WireText.Unpack | common/src/lib.rs:32-101 | a message comes back only from input framed by `!`, and its fields are non-empty, free of `#` and shaped as the command calls for |
| WireText.CommandGroupsDisjoint | common/src/lib.rs:43-99 | no command word is in two of the three match arms |
| WireText.CommandWordIsField | common/src/lib.rs:43-99 | every command word of the three arms is non-empty and free of `#` |
| WireText.FromFields | common/src/lib.rs:42-100 | the arm chosen by a message's own command rebuilds the message from its fields |
| WireText.RoundTrip | common/src/lib.rs:10-101 | `unpack_message(pack_message(m)) == Some(m)` for every message whose fields are non-empty, free of `#` and shaped as its command calls for |
| WireText.UnpackNeedsFrame | common/src/lib.rs:33-35 | anything not starting and ending with `!` unpacks to `None` |
| WireText.UnpackTokenCounts | common/src/lib.rs:45-99 | the token count each command group needs is necessary and sufficient for a message |
| WireText.UnpackPanics | common/src/lib.rs:38-40 | `"!"` and `"!!"` leave no token, so `tokens[0]` panics |
| WireText.PackRegisterVector | common/tests/parsing_tests.rs:8-16 | the packed register message of the parsing test |
| WireText.UnpackRegisterVector | common/tests/parsing_tests.rs:59-70 | unpacking the register frame of the parsing test |
| WireText.PackRoomMessageVector | common/tests/parsing_tests.rs:20-29 | the packed room message of the parsing test |
| WireText.UnpackRoomMessageVector | common/tests/parsing_tests.rs:72-83 | unpacking the room-message frame of the parsing test |
| WireText.PackUsersVector | common/tests/parsing_tests.rs:45-54 | the packed user listing of the parsing test |
| WireText.UnpackUsersVector | common/tests/parsing_tests.rs:98-109 | unpacking the user-listing frame of the parsing test |
| WireText.PackRoomsVector | common/tests/parsing_tests.rs:33-42 | the packed room listing of the parsing test |
| WireText.UnpackRoomsVector | common/tests/parsing_tests.rs:85-96 | unpacking the room-listing frame of the parsing test |
| Messages.CheckMessage | common/src/message.rs:48-100 | a message passes exactly when its argument and content are present or absent as its type calls for; the error names the missing or unexpected field |
| Messages.Build | common/src/message.rs:103-120 | `build` gives exactly the message with the given fields when they pass the check, and otherwise the error `check_message` reports for that message: the argument error first, then the content error |
| Messages.FromDecoded | common/src/message.rs:122-128 | a decoded message is returned only when it passes the check, a message that fails the check gives the check's own error, and a decoding error is passed on |
| Messages.GroupsPartition | common/src/message.rs:6-28 | every message type is in exactly one of the three field groups |
| MessageQueue.MessageQueue.constructor | common/src/message_queue.rs:15-19 | a new queue is empty |
| MessageQueue.MessageQueue.PushFront | common/src/message_queue.rs:21-24 | the element is put before the old contents |
| MessageQueue.MessageQueue.PushBack | common/src/message_queue.rs:26-29 | the element is put after the old contents |
| MessageQueue.MessageQueue.Front | common/src/message_queue.rs:31-35 | the first element, or `None` exactly when the queue is empty |
| MessageQueue.MessageQueue.Back | common/src/message_queue.rs:37-41 | the last element, or `None` exactly when the queue is empty |
| MessageQueue.MessageQueue.PopFront | common/src/message_queue.rs:43-47 | removes and returns the first element; an empty queue stays empty and gives `None` |
| MessageQueue.MessageQueue.PopBack | common/src/message_queue.rs:49-53 | removes and returns the last element; an empty queue stays empty and gives `None` |
| MessageQueue.MessageQueue.IsEmpty | common/src/message_queue.rs:55-59 | true exactly when there are no elements |
| MessageQueue.MessageQueue.Clear | common/src/message_queue.rs:61-64 | the queue is empty afterwards |
| MessageQueue.MessageQueue.Len | common/src/message_queue.rs:66-70 | the number of elements |
| MessageQueue.Fifo | common/src/message_queue.rs:26-53 | pushing each element at the back of a queue, then popping from the front until `None`, hands out the queued elements and then the pushed ones in the order pushed, and leaves the queue empty |
| ChatAction.ParseTokens | chatclient/src/state_handler/action.rs:16-137 | never `Invalid`; a result only for a line whose first word starts with `/` and names one of the eleven commands, so an unknown command name gives `None` |
| ChatAction.ParseCommand | chatclient/src/state_handler/action.rs:16-137 | reading the words one after another gives the meaning of the line's words |
| ChatAction.NoArgumentCommands | chatclient/src/state_handler/action.rs:23-25 | `/help`, `/disconnect` and `/quit` ignore whatever follows them |
| ChatAction.OneArgumentCommands | chatclient/src/state_handler/action.rs:26-44 | `/name`, `/connect`, `/list`, `/join`, `/leave` and `/create` carry the next word and are `None` without one |
| ChatAction.MessageCommands | chatclient/src/state_handler/action.rs:45-84 | `/sendto` and `/privmsg` carry a target and the remaining words joined by single spaces, and are `None` without a target or without words |
| ChatAction.WhitespaceInsensitive | chatclient/src/state_handler/action.rs:17 | doubled or leading whitespace changes no result |
| ClientAction.ParseTokens | client/src/state_handler/action.rs:10-58 | always a result; anything but `Invalid` only for a line whose first word starts with `/` and names one of the five commands, so an unknown command name gives `Invalid` |
| ClientAction.ParseCommand | client/src/state_handler/action.rs:10-58 | reading the words one after another gives the meaning of the line's words |
| ClientAction.ArgumentCommands | client/src/state_handler/action.rs:18-32 | `/name` and `/connect` carry the next word and are `Invalid` without one |
| ClientAction.SendCommand | client/src/state_handler/action.rs:33-45 | `/send` carries the remaining words joined by single spaces and is `Invalid` without any |
| ClientAction.NoArgumentCommands | client/src/state_handler/action.rs:46-51 | `/disconnect` and `/quit` ignore whatever follows them |
| ClientAction.WhitespaceInsensitive | client/src/state_handler/action.rs:11 | doubled or leading whitespace changes no result |
| InputBox.Utf8Width | client/src/tui/components/input_box.rs:37-43 | a character takes one to four bytes, and one exactly when it is ASCII |
| InputBox.CharStarts | client/src/tui/components/input_box.rs:37-43 | one start per character, each leaving room for its character within the text |
| InputBox.CharStartsArePrefixLengths | client/src/tui/components/input_box.rs:37-43 | a character starts at the byte length of the text before it |
| InputBox.ByteIndexIsPrefixLength | client/src/tui/components/input_box.rs:37-43 | `byte_index` is the byte length of the text before the cursor, also when the cursor is at the end |
| InputBox.InputBox.constructor | client/src/tui/components/input_box.rs:77-83 | an empty line, the cursor at its start, nothing sent |
| InputBox.InputBox.ClampCursor | client/src/tui/components/input_box.rs:59-61 | the position, or the end of the text when it lies beyond |
| InputBox.InputBox.CursorLeft | client/src/tui/components/input_box.rs:21-24 | the cursor moves one character left, not past the start; the text is unchanged |
| InputBox.InputBox.CursorRight | client/src/tui/components/input_box.rs:26-29 | the cursor moves one character right, not past the end; the text is unchanged |
| InputBox.InputBox.EnterChar | client/src/tui/components/input_box.rs:31-35 | the character is inserted at the cursor and the cursor moves past it |
| InputBox.InputBox.DeleteChar | client/src/tui/components/input_box.rs:45-57 | the character before the cursor is removed and the cursor moves back over it; at the start nothing changes |
| InputBox.InputBox.ResetCursor | client/src/tui/components/input_box.rs:63-65 | the cursor goes to the start; the text is unchanged |
| InputBox.InputBox.SubmitMsg | client/src/tui/components/input_box.rs:67-73 | the line is cleared and the action sent is `Send("")` |
| InputBox.InputBox.Update | client/src/tui/components/input_box.rs:85-90 | the component is handed back as it is |
| InputBox.InputBox.HandleKeyEvent | client/src/tui/components/input_box.rs:92-118 | a key release or an unbound key changes nothing; `q` quits; other characters are entered; Enter submits; Backspace, Left and Right edit or move as above |
| Listing.ListItems | chatclient/src/state_handler/state.rs:110-118 | the items of a listing are the pieces of its content between commas |
| Listing.BracketedItems | chatclient/src/state_handler/state.rs:114-116 | each item is shown as `[item]`, in order |
| Listing.ListingLinesShape | chatclient/src/state_handler/state.rs:110-120 | a listing shows its header, then one line per item, then the footer |
| Listing.ListingOfJoined | chatserver/src/server/server_events.rs:129-137 | a listing the server joins from comma-free names splits back into those names, one line each |
| ChatClientState.ClientState.constructor | chatclient/src/state_handler/state.rs:21-54 | not connected, no server, no name, the sentinel session id and the startup notices |
| ChatClientState.ClientState.PushNotification | chatclient/src/state_handler/state.rs:58-60 | the notice is appended and nothing else changes |
| ChatClientState.ClientState.Exit | chatclient/src/state_handler/state.rs:62-64 | the exit flag is set and nothing else changes |
| ChatClientState.ClientState.TerminateConnection | chatclient/src/state_handler/state.rs:66-68 | the connection status returns to uninitialised and nothing else changes |
| ChatClientState.ClientState.PushListing | chatclient/src/state_handler/state.rs:110-154 | the header, one bracketed line per item and the footer are appended |
| ChatClientState.ClientState.HandleMessage | chatclient/src/state_handler/state.rs:70-185 | the notices of the message are appended; only a failed registration is an error, and it drops the connection; `Registered` sets the session id and the name; `ChangedName` sets the name |
| ChatClientState.CheckedMessagesAreHandled | chatclient/src/state_handler/state.rs:70-185 | a message that passes `check_message` has every field the arms unwrap; only the parse of a `Registered` id can still fail |
| ChatClientState.ListingNotices | chatclient/src/state_handler/state.rs:110-154 | a listing of n items appends n + 2 notices, with the item lines in order |
| ChatClientState.UnhandledTypesAppendNothing | chatclient/src/state_handler/state.rs:181 | the request types the client does not handle append nothing |
| ClientNotices.UnpackedMessagesAreHandled | client/src/lib.rs:92-250 | of the messages `unpack_message` returns, the handler panics only on a `registered` reply whose content is no number and on an `incomingmsg` without content |
| ClientNotices.NoticesOfReplies | client/src/lib.rs:92-250 | every known reply pushes at least one notice, and every other command pushes none |
| ClientNotices.RegisteredReply | client/src/lib.rs:95-106 | a `registered` reply survives the frame and assigns the id and name it carries, with the one notice showing both |
| ClientNotices.ListingNotices | client/src/lib.rs:127-189 | a listing without content gives one notice; one with content gives the header, a bracketed line per item and the footer |
| ClientLib.MessageErrorText | client/src/lib.rs:259-266 | every message error displays as a non-empty text |
| ClientLib.ClientErrorText | client/src/lib.rs:275-283 | a client error displays as `Command failed: ` followed by the command |
| ClientLib.ErrorTextsDistinct | client/src/lib.rs:259-283 | distinct errors display differently, and no message error looks like a client error |
| ClientLib.ClientState.constructor | client/src/lib.rs:25-59 | not connected, no server, no name, the sentinel session id and the startup notices |
| ClientLib.ClientState.PushNotification | client/src/lib.rs:62-64 | the notice is appended and nothing else changes |
| ClientLib.ClientState.Exit | client/src/lib.rs:66-68 | the exit flag is set and nothing else changes |
| ClientLib.ClientState.TerminateConnection | client/src/lib.rs:70-72 | the connection status returns to uninitialised and nothing else changes |
| ClientLib.ClientState.HandleFailure | client/src/lib.rs:74-90 | a failed `register` closes the connection, drops its handle and adds the connection-closed notice; any other failure keeps both and adds nothing |
| ClientLib.ClientState.PushListing | client/src/lib.rs:127-189 | the header, one bracketed line per item and the footer are appended |
| ClientLib.ClientState.HandleListing | client/src/lib.rs:127-189 | a listing arm appends exactly the listing's notices |
| ClientLib.ClientState.HandleReply | client/src/lib.rs:94-248 | the notices of the reply are appended; an unknown command is `InvalidCommand`, a failure is `CommandFailed` naming the command, anything else succeeds; the name and session id follow the reply |
| ClientLib.ClientState.HandleMessage | client/src/lib.rs:92-250 | an unreadable frame is `InvalidMessage` and changes nothing; a readable one runs its arm |
| ClientTuiState.State.constructor | client/src/state_handler/state.rs:18-37 | not connected, no server, no name, the startup notices |
| ClientTuiState.State.SetName | client/src/state_handler/state.rs:41-43 | the name is set and nothing else changes |
| ClientTuiState.State.GetName | client/src/state_handler/state.rs:45-47 | the current name |
| ClientTuiState.State.SetServer | client/src/state_handler/state.rs:49-51 | the server is set and nothing else changes |
| ClientTuiState.State.PushNotification | client/src/state_handler/state.rs:53-55 | the notice is appended and nothing else changes |
| ClientTuiState.State.SetConnectionStatus | client/src/state_handler/state.rs:57-63 | the status is set; falling back to uninitialised also asks for a server address, every other status is set silently |
| ClientTuiState.State.GetConnectionStatus | client/src/state_handler/state.rs:65-67 | the current status |
| ClientTuiState.State.Exit | client/src/state_handler/state.rs:69-71 | the exit flag is set and nothing else changes |
| ClientHandler.ErrorText | client/src/client.rs:12-23 | every error displays as a non-empty text |
| ClientHandler.ErrorTextInjective | client/src/client.rs:12-23 | distinct errors display differently |
| ClientHandler.PushListing | client/src/client.rs:61-123 | the header, one bracketed line per item and the footer are appended to the interface state |
| ClientHandler.HandleListing | client/src/client.rs:61-123 | a listing arm appends exactly the listing's notices |
| ClientHandler.HandleReply | client/src/client.rs:29-182 | the same notices and name change as the session state; an unknown command is `InvalidCommand` and a failure `CommandFailed` |
| ClientHandler.HandleMessage | client/src/client.rs:27-184 | an unreadable frame is `InvalidMessage` and changes nothing; a readable one runs its arm |
| ServerState.ErrorText | server/src/lib.rs:289-301 | every server error displays as a non-empty text |
| ServerState.ErrorTextInjective | server/src/lib.rs:289-301 | distinct server errors display differently |
| ServerState.NewClient | server/src/lib.rs:31-43 | a new client has its id and no name |
| ServerState.ServerState.constructor | server/src/lib.rs:112-122 | the first id is 1 and every table is empty |
| ServerState.ServerState.GetNextId | server/src/lib.rs:125-127 | the id the next client gets |
| ServerState.ServerState.IncrementId | server/src/lib.rs:129-131 | the next id goes up by one and nothing else changes |
| ServerState.ServerState.AddNewClient | server/src/lib.rs:133-137 | the client and its abort handle are stored under its id, and nothing else changes |
| ServerState.ServerState.Register | server/src/lib.rs:139-155 | an unknown client is `Err(ClientNotFound)` and changes nothing; a taken name returns `Ok` and only the `failed` message sent back carries the error; a free name maps to the id and `registered` is sent |
| ServerState.ServerState.ListUsers | server/src/lib.rs:157-167 | every user name once, in some order, joined by commas; empty when there is no user, and, when no name is empty, only then; with comma-free names the pieces give the names back |
| ServerState.ServerState.GetUserId | server/src/lib.rs:169-171 | the id of a known name, `None` for an unknown one |
| ServerState.ServerState.ChangeUsername | server/src/lib.rs:173-193 | an unknown client returns `Ok` and changes nothing; a taken name is `Err(UserNameTaken)` with a `failed` message sent back; otherwise the key of the recorded name is replaced by the new one and `changedname` is sent |
| ServerState.ServerState.DropClient | server/src/lib.rs:195-203 | the client and its name are forgotten and its connection task is aborted |
| ServerState.ServerState.Accept | server/src/main.rs:308-326 | a connection gets the next id, a nameless client and its abort handle, and the ids stay unique |
| RoomManager.KeyedByNameOwnName | chatserver/src/room/room_manager.rs:15-22 | every room is stored under its own name |
| RoomManager.KeyedByNameKeys | chatserver/src/room/room_manager.rs:15-22 | a name is stored exactly when some supplied room carries it |
| RoomManager.RoomManager.constructor | chatserver/src/room/room_manager.rs:15-22 | the supplied rooms keyed by name |
| RoomManager.RoomManager.AddRoom | chatserver/src/room/room_manager.rs:24-26 | the room is stored under the name, replacing any other, and nothing else changes |
| RoomManager.RoomManager.Join | chatserver/src/room/room_manager.rs:28-39 | a handle on the room when it exists, the error `Failed to join room` exactly when it does not; the table is untouched |
| RoomManager.RoomManager.GetRooms | chatserver/src/room/room_manager.rs:41-43 | exactly the names of the stored rooms |
| ChatServer.Server.constructor | chatserver/src/server/mod.rs:113-130 | no users or sessions, the first id 1, and the one room `main` |
| ChatServer.Server.Accept | chatserver/src/server/mod.rs:150-159 | a connection gets a fresh id and a session without name or rooms, in any table state, and the tables stay consistent when they were |
| ChatServer.Server.HandleRegister | chatserver/src/server/server_events.rs:87-104 | the tables and reply move as `Step` says for Register |
| ChatServer.Server.HandleChangeName | chatserver/src/server/server_events.rs:105-127 | the tables and reply move as `Step` says for ChangeName |
| ChatServer.Server.HandleList | chatserver/src/server/server_events.rs:128-178 | the reply is the listing `Step` gives for the order in which the map yields its keys |
| ChatServer.Server.HandleJoinRoom | chatserver/src/server/server_events.rs:179-204 | the tables and reply move as `Step` says for JoinRoom |
| ChatServer.Server.HandleLeaveRoom | chatserver/src/server/server_events.rs:205-230 | the tables and reply move as `Step` says for LeaveRoom |
| ChatServer.Server.HandleCreateRoom | chatserver/src/server/server_events.rs:231-248 | the tables and reply move as `Step` says for CreateRoom |
| ChatServer.Server.HandleSendTo | chatserver/src/server/server_events.rs:249-274 | the tables and reply move as `Step` says for SendTo |
| ChatServer.Server.HandlePrivMsg | chatserver/src/server/server_events.rs:275-311 | the tables and reply move as `Step` says for PrivMsg |
| ChatServer.Server.HandleDropSession | chatserver/src/server/server_events.rs:312-319 | the tables move as `Step` says for DropSession |
| ChatServer.Server.HandleEvent | chatserver/src/server/server_events.rs:81-323 | every event moves the tables and reply exactly as `Step` says; ids stay below the next id, and the name maps stay consistent under every event but a second Register from a named session |
| ChatServer.Server.RunArm | chatserver/src/server/mod.rs:179-435 | the arms inside `Server::start` move as `Step` says, answer every event but DropSession, and keep the tables consistent as `HandleEvent` does |
| ChatServer.ArmsAreDefined | chatserver/src/server/mod.rs:179-435 | where the arms inside `Server::start` do not panic, neither does `handle_event` |
| ChatServer.ArmsAlwaysReply | chatserver/src/server/mod.rs:179-435 | every event but DropSession is answered, and DropSession never is |
| ChatServer.FailedChangesNothing | chatserver/src/server/server_events.rs:87-319 | every refusal leaves all the tables as they were |
| ChatServer.TakenNamesRefused | chatserver/src/server/server_events.rs:87-127 | Register and ChangeName fail with `Username already exists` exactly for a taken name |
| ChatServer.StepKeepsConsistent | chatserver/src/server/server_events.rs:87-319 | the two name maps stay inverse, and every name belongs to a session of that name, under every event but a second Register from a named session |
| ChatServer.ChangeNameKeepsConsistent | chatserver/src/server/server_events.rs:105-127 | a name change keeps the name maps inverse and the session's name in step |
| ChatServer.DropSessionKeepsConsistent | chatserver/src/server/server_events.rs:312-319 | dropping a session keeps the name maps inverse |
| ChatServer.SecondRegisterBreaksInverse | chatserver/src/server/server_events.rs:87-104 | a second Register from a registered session leaves its first name mapped to it while the id maps to the second |
| ChatServer.StepAddsNoSession | chatserver/src/server/server_events.rs:87-319 | no event adds a session |
| ChatServer.DropSessionForgets | chatserver/src/server/server_events.rs:312-319 | DropSession removes the session and every trace of its id from both name maps, and a second one changes nothing |
| ChatServer.MembershipChangesByOneRoom | chatserver/src/server/server_events.rs:179-230 | a successful Join adds exactly the named room to the session's rooms and a successful Leave removes it; no other session and no other table changes |
| ChatServer.JoinRoomOutcomes | chatserver/src/server/server_events.rs:179-204 | JoinRoom succeeds exactly for an existing room the session is not yet in, with the error of each other case |
| ChatServer.CreateRoomAddsOneRoom | chatserver/src/server/server_events.rs:231-248 | CreateRoom adds exactly the new room, and refuses a name in use |
| ChatServer.SendToPostsOnce | chatserver/src/server/server_events.rs:249-274 | a member's post goes once to that room, from the sender's id with the sender's name, and passes `check_message`; a non-member is refused and nothing changes |
| ChatServer.PrivMsgDeliversOnce | chatserver/src/server/server_events.rs:275-311 | a message to a name with a session is delivered once to that session, from the sender's id with the sender's name; an unknown name or a missing session is refused and nothing changes |
| ChatServer.ListingLists | chatserver/src/server/server_events.rs:128-178 | nothing changes; an unknown option is refused exactly; a known one joins every key once with commas, and splitting that listing on commas gives exactly those keys back |
| ChatServer.RequestEvent | chatserver/src/server/mod.rs:478-916 | exactly the forwarded request types become an event, which carries the session's own id |
| ChatServer.CheckedRequestsAreDefined | chatserver/src/server/mod.rs:478-916 | a request that passes `check_message` has every field `handle_session` unwraps |
| ChatServer.RepliesPassCheck | chatserver/src/server/mod.rs:478-916 | every message `handle_session` writes back passes `check_message` |
| ChatServer.EveryRequestAnswered | chatserver/src/server/mod.rs:478-916 | every forwarded request gets exactly one reply message |
| ChatServer.FailuresNameTheCommand | chatserver/src/server/mod.rs:478-916 | a failure is written back as a `Failed` message naming the request's command |
| ChatServer.RegisteredCarriesSessionId | chatserver/src/server/mod.rs:481-530 | a registration reply carries the name and the session's id in decimal, which parses back to that id |

## Left out

- Sockets, the tokio tasks and loops, channels, the websocket `session.rs` and the terminal rendering are I/O. They are left out. Replies and notices are recorded in sequences instead.
- Postcard encoding (`Message::to_bytes` and the decoding inside `from_bytes`) is left out. `Messages.FromDecoded` takes the decoded result as a parameter.
- The 3 ms sleep and every other timing are left out.
- `ClientConnection` and the connect and disconnect handling in both clients are left out: they only open and close sockets.
- Rooms are known only by their names. Their broadcast channels, the tokio task spawned for each room and its abort are left out, so `UserHandle` is only the name of the room it sends to.
- `HashMap` iteration order is not modelled. A listing is stated for every order that lists each key once.
- The session id that client/src/client.rs parses from `registered` is not stored, because `State` has no field for it. A malformed id panics there. In the model the id is parsed and then dropped.
- In server/main.rs only the accept step is modelled. The rest of `main` composes the I/O tasks.
- server/src/room/room_manager.rs is not part of this model: it calls methods its `Room` does not have, so it does not type-check.
- server/src/server_action.rs is not part of this model: it holds only unused duplicate type declarations.
- The first-generation `ChatSession` (server/src/chat_session.rs) and the per-session room tasks of the second generation are left out: they spawn and abort tasks. Membership is modelled as a set of room names per session.
- The first-generation server's `register` and `change_username` do not set `client.username` themselves. Their caller in server/src/main.rs (lines 333-335 and 442-443) sets it after every `Ok`, and `register` returns `Ok` for a taken name too. That caller is outside this model, so `DropClient` is stated for whatever name the client record holds.
- The terminal interface outside the input box (layout, colours, the event loop) is left out.
- ChatServer.StepKeepsConsistent: requires that a Register comes from a session without a name. The server does not check this, and `SecondRegisterBreaksInverse` shows the name maps stop being inverse without it.
- ChatServer.Server.Accept: requires the next id to be below `u64::MAX`, where `next_client_id += 1` would panic in a debug build and wrap in a release build.
- ServerState.ServerState.Accept: requires the next id to be below `u64::MAX`, for the same reason.
- ServerState.ServerState.IncrementId: requires the next id to be below `u64::MAX`, for the same reason.
- The second-generation `Server::start` runs the same arms as `handle_event` inside its select loop. `RunArm` models those arms. The loop, the shutdown signal and the session tasks are left out.
- chatserver/src/server/server_events.rs is not compiled into the crate (mod.rs declares no module for it), but `handle_event` is still modelled as the reference for the arms in mod.rs.
