/**
 * The command line of the second-generation client
 * (chatclient/src/state_handler/action.rs): a typed line such as
 * `/sendto main hello there` becomes an `Action`, or nothing.
 */
module ChatAction {
  import opened Wrappers
  import opened Text

  datatype Action =
    | Help
    | Connect(addr: string)
    | SetName(name: string)
    | Disconnect
    | SendTo(room: string, message: string)
    | PrivMsg(user: string, message: string)
    | Join(room: string)
    | Leave(room: string)
    | List(opt: string)
    | Create(room: string)
    | Quit
    | Invalid

  /** Whether a token names a command: it starts with `/`. */
  predicate IsCommandToken(w: string) {
    |w| > 0 && w[0] == '/'
  }

  /**
   * The meaning of a line, given its whitespace-separated tokens: the
   * command the first token names, with its argument tokens.
   */
  function ParseTokens(t: seq<string>): (r: Option<Action>)
    ensures r != Some(Invalid)
    ensures r.Some? ==> t != [] && IsCommandToken(t[0])
    ensures r.Some? ==> t[0][1..] in {"help", "disconnect", "quit", "name", "connect", "list", "join", "leave", "create", "sendto", "privmsg"}
  {
    if t == [] || !IsCommandToken(t[0]) then None
    else
      var name := t[0][1..];
      if name == "help" then Some(Help)
      else if name == "disconnect" then Some(Disconnect)
      else if name == "quit" then Some(Quit)
      else if name == "name" then (if |t| < 2 then None else Some(SetName(t[1])))
      else if name == "connect" then (if |t| < 2 then None else Some(Connect(t[1])))
      else if name == "list" then (if |t| < 2 then None else Some(List(t[1])))
      else if name == "join" then (if |t| < 2 then None else Some(Join(t[1])))
      else if name == "leave" then (if |t| < 2 then None else Some(Leave(t[1])))
      else if name == "create" then (if |t| < 2 then None else Some(Create(t[1])))
      else if name == "sendto" || name == "privmsg" then
        if |t| < 2 then None
        else
          var message := JoinWith(t[2..], " ");
          if message == "" then None
          else if name == "sendto" then Some(SendTo(t[1], message))
          else Some(PrivMsg(t[1], message))
      else None
  }

  /** `parse_command`, reading the tokens one after another as the source does. */
  method ParseCommand(line: string) returns (r: Option<Action>)
    ensures r == ParseTokens(Words(line))
  {
    var tokens := Words(line);
    WordsAreWords(line);
    if tokens == [] || !IsCommandToken(tokens[0]) {
      return None;
    }
    var name := tokens[0][1..];
    match name
    case "help" =>
      r := Some(Help);
    case "name" =>
      r := if |tokens| < 2 then None else Some(SetName(tokens[1]));
    case "connect" =>
      r := if |tokens| < 2 then None else Some(Connect(tokens[1]));
    case "sendto" =>
      if |tokens| < 2 {
        return None;
      }
      var message := JoinRemaining(tokens[2..]);
      r := if message == "" then None else Some(SendTo(tokens[1], message));
    case "privmsg" =>
      if |tokens| < 2 {
        return None;
      }
      var message := JoinRemaining(tokens[2..]);
      r := if message == "" then None else Some(PrivMsg(tokens[1], message));
    case "list" =>
      r := if |tokens| < 2 then None else Some(List(tokens[1]));
    case "join" =>
      r := if |tokens| < 2 then None else Some(Join(tokens[1]));
    case "leave" =>
      r := if |tokens| < 2 then None else Some(Leave(tokens[1]));
    case "create" =>
      r := if |tokens| < 2 then None else Some(Create(tokens[1]));
    case "disconnect" =>
      r := Some(Disconnect);
    case "quit" =>
      r := Some(Quit);
    case _ =>
      r := None;
  }

  // ---------------------------------------------------------------------------
  // Properties
  // ---------------------------------------------------------------------------

  /** `/help`, `/disconnect` and `/quit` ignore whatever follows them. */
  lemma NoArgumentCommands(rest: seq<string>)
    ensures ParseTokens(["/help"] + rest) == Some(Help)
    ensures ParseTokens(["/disconnect"] + rest) == Some(Disconnect)
    ensures ParseTokens(["/quit"] + rest) == Some(Quit)
  {
    assert ["/help"][0][1..] == "help";
    assert ["/disconnect"][0][1..] == "disconnect";
    assert ["/quit"][0][1..] == "quit";
  }

  /**
   * The one-argument commands take the next token verbatim, give nothing
   * when it is missing, and ignore any further tokens.
   */
  lemma OneArgumentCommands(arg: string, rest: seq<string>)
    ensures ParseTokens(["/name"]) == None && ParseTokens(["/name", arg] + rest) == Some(SetName(arg))
    ensures ParseTokens(["/connect"]) == None && ParseTokens(["/connect", arg] + rest) == Some(Connect(arg))
    ensures ParseTokens(["/list"]) == None && ParseTokens(["/list", arg] + rest) == Some(List(arg))
    ensures ParseTokens(["/join"]) == None && ParseTokens(["/join", arg] + rest) == Some(Join(arg))
    ensures ParseTokens(["/leave"]) == None && ParseTokens(["/leave", arg] + rest) == Some(Leave(arg))
    ensures ParseTokens(["/create"]) == None && ParseTokens(["/create", arg] + rest) == Some(Create(arg))
  {
    assert "/name"[1..] == "name" && "/connect"[1..] == "connect" && "/list"[1..] == "list";
    assert "/join"[1..] == "join" && "/leave"[1..] == "leave" && "/create"[1..] == "create";
  }

  /**
   * `/sendto` and `/privmsg` take the target from the second token and the
   * message from all later tokens joined by single spaces; with no such
   * tokens there is no action.
   */
  lemma MessageCommands(target: string, words: seq<string>)
    requires AllWords(words)
    ensures ParseTokens(["/sendto", target] + words)
      == if words == [] then None else Some(SendTo(target, JoinWith(words, " ")))
    ensures ParseTokens(["/privmsg", target] + words)
      == if words == [] then None else Some(PrivMsg(target, JoinWith(words, " ")))
    ensures ParseTokens(["/sendto"]) == None && ParseTokens(["/privmsg"]) == None
  {
    assert "/sendto"[1..] == "sendto" && "/privmsg"[1..] == "privmsg";
    assert (["/sendto", target] + words)[2..] == words;
    assert (["/privmsg", target] + words)[2..] == words;
    if words != [] {
      JoinWordsEnds(words);
    }
  }

  /** A doubled whitespace character, or one in front of the line, changes no result. */
  lemma WhitespaceInsensitive(a: string, c: char, b: string)
    requires IsWhitespace(c)
    ensures ParseTokens(Words(a + [c] + [c] + b)) == ParseTokens(Words(a + [c] + b))
    ensures ParseTokens(Words([c] + b)) == ParseTokens(Words(b))
  {
    WordsExtraWhitespace(a, c, b);
    WordsLeadingWhitespace(c, b);
  }
}
