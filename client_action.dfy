/**
 * The command line of the first-generation client
 * (client/src/state_handler/action.rs): every line becomes an `Action`,
 * `Invalid` when it is not a well-formed command.
 */
module ClientAction {
  import opened Wrappers
  import opened Text

  datatype Action =
    | Connect(addr: string)
    | SetName(name: string)
    | Disconnect
    | Send(data: string)
    | Quit
    | Invalid

  predicate IsCommandToken(w: string) {
    |w| > 0 && w[0] == '/'
  }

  /** The meaning of a line, given its whitespace-separated tokens. */
  function ParseTokens(t: seq<string>): (r: Option<Action>)
    ensures r.Some?
    ensures r.value != Invalid ==> t != [] && IsCommandToken(t[0])
    ensures r.value != Invalid ==> t[0][1..] in {"name", "connect", "send", "disconnect", "quit"}
  {
    if t == [] || !IsCommandToken(t[0]) then Some(Invalid)
    else
      var name := t[0][1..];
      if name == "name" then Some(if |t| < 2 then Invalid else SetName(t[1]))
      else if name == "connect" then Some(if |t| < 2 then Invalid else Connect(t[1]))
      else if name == "send" then
        var data := JoinWith(t[1..], " ");
        Some(if data == "" then Invalid else Send(data))
      else if name == "disconnect" then Some(Disconnect)
      else if name == "quit" then Some(Quit)
      else Some(Invalid)
  }

  /** `parse_command`, reading the tokens one after another as the source does. */
  method ParseCommand(line: string) returns (r: Option<Action>)
    ensures r == ParseTokens(Words(line))
  {
    var tokens := Words(line);
    WordsAreWords(line);
    if tokens != [] && IsCommandToken(tokens[0]) {
      var name := tokens[0][1..];
      match name
      case "name" =>
        return Some(if |tokens| < 2 then Invalid else SetName(tokens[1]));
      case "connect" =>
        return Some(if |tokens| < 2 then Invalid else Connect(tokens[1]));
      case "send" =>
        var msg := JoinRemaining(tokens[1..]);
        return Some(if msg == "" then Invalid else Send(msg));
      case "disconnect" =>
        return Some(Disconnect);
      case "quit" =>
        return Some(Quit);
      case _ =>
    }
    return Some(Invalid);
  }

  // ---------------------------------------------------------------------------
  // Properties
  // ---------------------------------------------------------------------------

  /** `/name` and `/connect` carry the next token, and are `Invalid` without one. */
  lemma ArgumentCommands(arg: string, rest: seq<string>)
    ensures ParseTokens(["/name"]) == Some(Invalid)
    ensures ParseTokens(["/name", arg] + rest) == Some(SetName(arg))
    ensures ParseTokens(["/connect"]) == Some(Invalid)
    ensures ParseTokens(["/connect", arg] + rest) == Some(Connect(arg))
  {
    assert "/name"[1..] == "name" && "/connect"[1..] == "connect";
  }

  /** `/send` carries all later tokens joined by single spaces, and is `Invalid` without any. */
  lemma SendCommand(words: seq<string>)
    requires AllWords(words)
    ensures ParseTokens(["/send"] + words)
      == Some(if words == [] then Invalid else Send(JoinWith(words, " ")))
  {
    assert "/send"[1..] == "send";
    assert (["/send"] + words)[1..] == words;
    if words != [] {
      JoinWordsEnds(words);
    }
  }

  /** `/disconnect` and `/quit` ignore whatever follows them. */
  lemma NoArgumentCommands(rest: seq<string>)
    ensures ParseTokens(["/disconnect"] + rest) == Some(Disconnect)
    ensures ParseTokens(["/quit"] + rest) == Some(Quit)
  {
    assert ["/disconnect"][0][1..] == "disconnect";
    assert ["/quit"][0][1..] == "quit";
  }

  /**
   * A doubled whitespace character, or one in front of the line, changes no
   * result. The proof reads like the one in `ChatAction`, but it is about this
   * parser's `ParseTokens`: both parsers read `split_whitespace` tokens.
   */
  lemma WhitespaceInsensitive(a: string, c: char, b: string)
    requires IsWhitespace(c)
    ensures ParseTokens(Words(a + [c] + [c] + b)) == ParseTokens(Words(a + [c] + b))
    ensures ParseTokens(Words([c] + b)) == ParseTokens(Words(b))
  {
    WordsExtraWhitespace(a, c, b);
    WordsLeadingWhitespace(c, b);
  }
}
