/**
 * The state behind the first-generation client's terminal interface
 * (client/src/state_handler/state.rs): the connection, the chosen name and
 * the notices shown to the user.
 */
module ClientTuiState {
  datatype ConnectionStatus = Established | Connecting | Bricked | Unitiliazed

  const EnterServerAddress := "[*] Enter server address (ex. 127.0.0.1:6667)"

  /** The notices a fresh interface shows. */
  const StartupNotices: seq<string> := [
    "---To quit use \"/quit\"---",
    "[*] No nickname set. To set one use the \"/name\" command",
    "\tExample: /name jon",
    "[*] Not connected to server. To connect use \"/connect\" command",
    "\tExample: /connect 127.0.0.1:6667"
  ]

  class State {
    var connectionStatus: ConnectionStatus
    var currentServer: string
    var name: string
    var notifications: seq<string>
    var exit: bool

    /** `Default::default` */
    constructor ()
      ensures connectionStatus == Unitiliazed && currentServer == "" && name == ""
      ensures notifications == StartupNotices && !exit
    {
      connectionStatus := Unitiliazed;
      currentServer := "";
      name := "";
      notifications := StartupNotices;
      exit := false;
    }

    method SetName(newName: string)
      modifies this
      ensures name == newName
      ensures connectionStatus == old(connectionStatus) && currentServer == old(currentServer)
      ensures notifications == old(notifications) && exit == old(exit)
    {
      name := newName;
    }

    method GetName() returns (n: string)
      ensures n == name
    {
      n := name;
    }

    method SetServer(server: string)
      modifies this
      ensures currentServer == server
      ensures connectionStatus == old(connectionStatus) && name == old(name)
      ensures notifications == old(notifications) && exit == old(exit)
    {
      currentServer := server;
    }

    method PushNotification(notification: string)
      modifies this
      ensures notifications == old(notifications) + [notification]
      ensures connectionStatus == old(connectionStatus) && currentServer == old(currentServer)
      ensures name == old(name) && exit == old(exit)
    {
      notifications := notifications + [notification];
    }

    /**
     * `set_connection_status`: falling back to `Unitiliazed` asks the user
     * for a server address; every other status is set silently.
     */
    method SetConnectionStatus(status: ConnectionStatus)
      modifies this
      ensures connectionStatus == status
      ensures notifications ==
        old(notifications) + (if status == Unitiliazed then [EnterServerAddress] else [])
      ensures currentServer == old(currentServer) && name == old(name) && exit == old(exit)
    {
      if status == Unitiliazed {
        PushNotification(EnterServerAddress);
      }
      connectionStatus := status;
    }

    method GetConnectionStatus() returns (s: ConnectionStatus)
      ensures s == connectionStatus
    {
      s := connectionStatus;
    }

    method Exit()
      modifies this
      ensures exit
      ensures connectionStatus == old(connectionStatus) && currentServer == old(currentServer)
      ensures name == old(name) && notifications == old(notifications)
    {
      exit := true;
    }
  }
}
