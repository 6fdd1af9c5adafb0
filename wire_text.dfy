/**
 * The text wire format of the first-generation client and server:
 * `!#cmd#arg#sender#id#content#!`, where `arg` and `content` are present or
 * absent according to the command word (common/src/lib.rs).
 */
module WireText {
  import opened Wrappers
  import opened Text

  /** `common::Message` */
  datatype TextMessage = TextMessage(
    cmd: string,
    arg: Option<string>,
    sender: string,
    id: U64,
    content: Option<string>)

  /** Commands that carry an argument and no content. */
  predicate ArgOnlyCommand(cmd: string) {
    cmd in {"register", "join", "joined", "leave", "leftroom", "list", "changename",
            "create", "createdroom"}
  }

  /** Commands that carry an argument and a content. */
  predicate ArgContentCommand(cmd: string) {
    cmd in {"failed", "registered", "privmsg", "outgoingmsg", "changedname", "sendto",
            "roommessage"}
  }

  /** Commands that carry no argument and an optional content. */
  predicate ContentOnlyCommand(cmd: string) {
    cmd in {"rooms", "allrooms", "users", "incomingmsg"}
  }

  /** A field that survives the trip through the format: non-empty and without `#`. */
  predicate IsField(f: string) {
    f != [] && Free(f, IsHash)
  }

  predicate OptionalField(f: Option<string>) {
    f.Some? ==> IsField(f.value)
  }

  /** The presence of `arg` and `content` that the command word calls for. */
  predicate HasShapeOfCommand(m: TextMessage) {
    (ArgOnlyCommand(m.cmd) && m.arg.Some? && m.content.None?)
    || (ArgContentCommand(m.cmd) && m.arg.Some? && m.content.Some?)
    || (ContentOnlyCommand(m.cmd) && m.arg.None?)
  }

  /** A message that `unpack_message` can give back after `pack_message`. */
  predicate IsPackable(m: TextMessage) {
    HasShapeOfCommand(m) && IsField(m.sender) && OptionalField(m.arg) && OptionalField(m.content)
  }

  function OptionList(f: Option<string>): seq<string> {
    if f.Some? then [f.value] else []
  }

  /** The fields of a message in wire order; absent ones are skipped. */
  function Fields(m: TextMessage): seq<string> {
    [m.cmd] + OptionList(m.arg) + [m.sender, ToDecimal(m.id)] + OptionList(m.content)
  }

  /** The packed form: the fields joined by `#`, framed by `!#` and `#!`. */
  function Packed(m: TextMessage): string {
    "!#" + JoinWith(Fields(m), "#") + "#!"
  }

  /** `pack_message`, pushing piece after piece onto the output as the source does. */
  method PackMessage(m: TextMessage) returns (packed: string)
    ensures packed == Packed(m)
    ensures packed[..2 + |m.cmd|] == "!#" + m.cmd
    ensures |packed| >= 4 + |m.cmd| && packed[|packed| - 2..] == "#!"
  {
    ghost var a := if m.arg.Some? then "#" + m.arg.value else "";
    ghost var c := if m.content.Some? then "#" + m.content.value else "";
    packed := "!#";
    packed := packed + m.cmd;
    if m.arg.Some? {
      packed := packed + "#";
      packed := packed + m.arg.value;
    }
    assert packed == "!#" + m.cmd + a;
    packed := packed + "#";
    packed := packed + m.sender;
    packed := packed + "#";
    packed := packed + ToDecimal(m.id);
    ghost var upToId := packed;
    if m.content.Some? {
      packed := packed + "#";
      packed := packed + m.content.value;
    }
    assert packed == upToId + c;
    packed := packed + "#!";
    PackedPieces(m);
    PackedFraming(m);
  }

  /** The packed form written out piece by piece. */
  lemma PackedPieces(m: TextMessage)
    ensures Packed(m) ==
      "!#" + m.cmd
      + (if m.arg.Some? then "#" + m.arg.value else "")
      + "#" + m.sender + "#" + ToDecimal(m.id)
      + (if m.content.Some? then "#" + m.content.value else "")
      + "#!"
  {
    var d := ToDecimal(m.id);
    var c := if m.content.Some? then "#" + m.content.value else "";
    var tail := [m.sender] + ([d] + OptionList(m.content));
    TailPieces(m.sender, d, m.content);
    if m.arg.Some? {
      assert Fields(m) == [m.cmd] + ([m.arg.value] + tail);
      JoinWithCons(m.arg.value, tail, "#");
      JoinWithCons(m.cmd, [m.arg.value] + tail, "#");
      SeqAssoc(m.cmd, m.arg.value, m.sender, d, c);
    } else {
      assert Fields(m) == [m.cmd] + tail;
      JoinWithCons(m.cmd, tail, "#");
      SeqAssoc2(m.cmd, m.sender, d, c);
    }
  }

  /** The sender, id and optional content joined by `#`. */
  lemma TailPieces(sender: string, d: string, content: Option<string>)
    ensures JoinWith([sender] + ([d] + OptionList(content)), "#")
      == sender + "#" + (d + if content.Some? then "#" + content.value else "")
  {
    var c := if content.Some? then "#" + content.value else "";
    assert JoinWith([d] + OptionList(content), "#") == d + c by {
      if content.Some? {
        JoinWithCons(d, [content.value], "#");
      }
    }
    JoinWithCons(sender, [d] + OptionList(content), "#");
  }

  lemma SeqAssoc2(x: string, z: string, d: string, c: string)
    ensures "!#" + (x + "#" + (z + "#" + (d + c))) + "#!" == "!#" + x + "" + "#" + z + "#" + d + c + "#!"
  {
  }

  lemma SeqAssoc(x: string, y: string, z: string, d: string, c: string)
    ensures "!#" + (x + "#" + (y + "#" + (z + "#" + (d + c)))) + "#!"
      == "!#" + x + ("#" + y) + "#" + z + "#" + d + c + "#!"
  {
  }

  lemma JoinWithCons(x: string, xs: seq<string>, sep: string)
    requires xs != []
    ensures JoinWith([x] + xs, sep) == x + sep + JoinWith(xs, sep)
  {
    assert ([x] + xs)[1..] == xs;
  }

  // ---------------------------------------------------------------------------
  // Unpacking
  // ---------------------------------------------------------------------------

  /** `message.starts_with("!") && message.ends_with("!")` */
  predicate IsFramed(s: string) {
    |s| >= 1 && s[0] == '!' && s[|s| - 1] == '!'
  }

  /** `content.split('#').filter(|s| !s.is_empty())` */
  function Tokens(inner: string): seq<string> {
    NonEmpty(SplitOn(inner, IsHash))
  }

  /**
   * Whether the arm that the first token selects can parse its id token; an
   * arm whose token count is wrong returns before parsing.
   */
  predicate IdTokenParses(t: seq<string>)
    requires |t| >= 1
  {
    if ArgOnlyCommand(t[0]) then |t| != 4 || ParseU64(t[3]).Some?
    else if ArgContentCommand(t[0]) then |t| != 5 || ParseU64(t[3]).Some?
    else if ContentOnlyCommand(t[0]) then (|t| != 3 && |t| != 4) || ParseU64(t[2]).Some?
    else true
  }

  /**
   * The inputs on which `unpack_message` returns instead of panicking: a
   * framed input must be longer than one character (`&message[1..0]`), hold
   * at least one token (`tokens[0]`) and have a numeric id (`unwrap`).
   */
  predicate UnpackDefined(s: string) {
    IsFramed(s) ==> |s| >= 2 && var t := Tokens(s[1..|s| - 1]); |t| >= 1 && IdTokenParses(t)
  }

  /** The arm of `unpack_message` that the first token selects. */
  function FromTokens(t: seq<string>): (r: Option<TextMessage>)
    requires |t| >= 1 && IdTokenParses(t)
    ensures r.Some? ==> HasShapeOfCommand(r.value) && r.value.cmd == t[0]
    ensures r.Some? ==> r.value.sender in t
    ensures r.Some? && r.value.arg.Some? ==> r.value.arg.value in t
    ensures r.Some? && r.value.content.Some? ==> r.value.content.value in t
  {
    var cmd := t[0];
    if ArgOnlyCommand(cmd) then
      if |t| != 4 then None
      else Some(TextMessage(cmd, Some(t[1]), t[2], ParseU64(t[3]).value, None))
    else if ArgContentCommand(cmd) then
      if |t| != 5 then None
      else Some(TextMessage(cmd, Some(t[1]), t[2], ParseU64(t[3]).value, Some(t[4])))
    else if ContentOnlyCommand(cmd) then
      if |t| != 4 && |t| != 3 then None
      else
        var content := if |t| < 4 then None else Some(t[3]);
        Some(TextMessage(cmd, None, t[1], ParseU64(t[2]).value, content))
    else None
  }

  /** `unpack_message` */
  function Unpack(s: string): (r: Option<TextMessage>)
    requires UnpackDefined(s)
    ensures r.Some? ==> IsFramed(s) && IsPackable(r.value) && IsField(r.value.cmd)
  {
    if !IsFramed(s) then None else FromTokens(Tokens(s[1..|s| - 1]))
  }

  // ---------------------------------------------------------------------------
  // Properties
  // ---------------------------------------------------------------------------

  /** The packed string starts with `!#` and the command, and ends with `#!`. */
  lemma PackedFraming(m: TextMessage)
    ensures var p := Packed(m);
      |p| >= 4 + |m.cmd| && p[..2 + |m.cmd|] == "!#" + m.cmd && p[|p| - 2..] == "#!"
      && IsFramed(p)
  {
    PackedPieces(m);
  }

  /** Absent fields leave no trace: the packed form has one `#`-piece per present field. */
  lemma PackedTokens(m: TextMessage)
    requires IsField(m.cmd) && IsField(m.sender) && OptionalField(m.arg) && OptionalField(m.content)
    ensures var p := Packed(m); |p| >= 2 && Tokens(p[1..|p| - 1]) == Fields(m)
  {
    var p := Packed(m);
    var fs := Fields(m);
    var j := JoinWith(fs, "#");
    assert p[1..|p| - 1] == [] + ['#'] + (j + ['#'] + []);
    forall i | 0 <= i < |fs| ensures Free(fs[i], IsHash) && fs[i] != "" {
      var d := ToDecimal(m.id);
      if fs[i] == d {
        forall k | 0 <= k < |d| ensures !IsHash(d[k]) {
          assert IsDigit(d[k]);
        }
      }
    }
    SplitJoin(fs, '#', IsHash);
    SplitOnAppend(j, '#', [], IsHash);
    SplitOnAppend([], '#', j + ['#'] + [], IsHash);
    NonEmptyAppend([""], fs + [""]);
    NonEmptyAppend(fs, [""]);
    NonEmptyWords(fs);
  }

  /** The three command groups are disjoint. */
  lemma CommandGroupsDisjoint(cmd: string)
    ensures ArgOnlyCommand(cmd) ==> !ArgContentCommand(cmd) && !ContentOnlyCommand(cmd)
    ensures ArgContentCommand(cmd) ==> !ContentOnlyCommand(cmd)
  {
  }

  /** Every command word of the three groups is non-empty and free of `#`. */
  lemma CommandWordIsField(cmd: string)
    requires ArgOnlyCommand(cmd) || ArgContentCommand(cmd) || ContentOnlyCommand(cmd)
    ensures IsField(cmd)
  {
    assert '#' !in cmd;
  }

  /** The arm selected by a message's own fields rebuilds the message. */
  lemma FromFields(m: TextMessage)
    requires HasShapeOfCommand(m)
    ensures |Fields(m)| >= 1 && IdTokenParses(Fields(m)) && FromTokens(Fields(m)) == Some(m)
  {
    CommandGroupsDisjoint(m.cmd);
    if ArgOnlyCommand(m.cmd) {
      FromFieldsArgOnly(m);
    } else if ArgContentCommand(m.cmd) {
      FromFieldsArgContent(m);
    } else {
      FromFieldsContentOnly(m);
    }
  }

  lemma FromFieldsArgOnly(m: TextMessage)
    requires ArgOnlyCommand(m.cmd) && m.arg.Some? && m.content.None?
    ensures |Fields(m)| >= 1 && IdTokenParses(Fields(m)) && FromTokens(Fields(m)) == Some(m)
  {
    ParseToDecimal(m.id);
    assert Fields(m) == [m.cmd, m.arg.value, m.sender, ToDecimal(m.id)];
  }

  lemma FromFieldsArgContent(m: TextMessage)
    requires ArgContentCommand(m.cmd) && !ArgOnlyCommand(m.cmd) && m.arg.Some? && m.content.Some?
    ensures |Fields(m)| >= 1 && IdTokenParses(Fields(m)) && FromTokens(Fields(m)) == Some(m)
  {
    ParseToDecimal(m.id);
    assert Fields(m) == [m.cmd, m.arg.value, m.sender, ToDecimal(m.id), m.content.value];
  }

  lemma FromFieldsContentOnly(m: TextMessage)
    requires ContentOnlyCommand(m.cmd) && !ArgOnlyCommand(m.cmd) && !ArgContentCommand(m.cmd)
    requires m.arg.None?
    ensures |Fields(m)| >= 1 && IdTokenParses(Fields(m)) && FromTokens(Fields(m)) == Some(m)
  {
    ParseToDecimal(m.id);
    if m.content.Some? {
      assert Fields(m) == [m.cmd, m.sender, ToDecimal(m.id), m.content.value];
    } else {
      assert Fields(m) == [m.cmd, m.sender, ToDecimal(m.id)];
    }
  }

  /** `unpack(pack(m)) == Some(m)` for every message whose fields the format can carry. */
  lemma RoundTrip(m: TextMessage)
    requires IsPackable(m)
    ensures UnpackDefined(Packed(m)) && Unpack(Packed(m)) == Some(m)
  {
    var p := Packed(m);
    PackedFraming(m);
    CommandWordIsField(m.cmd);
    PackedTokens(m);
    FromFields(m);
  }

  /** `unpack_message` returns `None` on anything not framed by `!`. */
  lemma UnpackNeedsFrame(s: string)
    requires UnpackDefined(s) && Unpack(s).Some?
    ensures |s| >= 2 && s[0] == '!' && s[|s| - 1] == '!'
  {
  }

  /**
   * The token-count rules: arg-only commands need exactly 4 tokens,
   * arg-and-content commands exactly 5, content-only commands 3 or 4 (with
   * `content == None` exactly when there are 3), and other words never parse.
   */
  lemma UnpackTokenCounts(s: string)
    requires UnpackDefined(s) && IsFramed(s)
    ensures var t := Tokens(s[1..|s| - 1]); var r := Unpack(s);
      && (ArgOnlyCommand(t[0]) ==> (r.Some? <==> |t| == 4))
      && (ArgContentCommand(t[0]) ==> (r.Some? <==> |t| == 5))
      && (ContentOnlyCommand(t[0]) ==> (r.Some? <==> |t| == 3 || |t| == 4))
      && (ContentOnlyCommand(t[0]) && r.Some? ==> (r.value.content.None? <==> |t| == 3))
      && (!ArgOnlyCommand(t[0]) && !ArgContentCommand(t[0]) && !ContentOnlyCommand(t[0]) ==> r.None?)
      && (r.Some? ==> r.value.cmd == t[0] && r.value.sender == (if ContentOnlyCommand(t[0]) then t[1] else t[2]))
  {
  }

  /** `"!"` and `"!!"` make `unpack_message` panic rather than return `None`. */
  lemma UnpackPanics()
    ensures !UnpackDefined("!") && !UnpackDefined("!!")
  {
    assert "!!"[1..1] == "";
    assert SplitOn("", IsHash) == [""];
    assert [""][1..] == [];
    assert Tokens("") == [];
  }

  lemma SmallDecimals()
    ensures ToDecimal(0) == "0" && ToDecimal(1) == "1"
  {
    assert DigitChar(0) == '0';
    assert DigitChar(1) == '1';
  }

  // The four test vectors of common/tests/parsing_tests.rs, covering the
  // three command groups: packing gives the expected frame, and unpacking the
  // frame gives the message back. (The
  // vectors are passed in as parameters so that the solver does not try to
  // evaluate the packing functions on literals.)

  lemma PackRegisterVector(m: TextMessage)
    requires m == TextMessage("register", Some("jon"), "new-user", 1, None)
    ensures Packed(m) == "!#register#jon#new-user#1#!"
  {
    assert "!#" + m.cmd + ("#" + m.arg.value) + "#" + m.sender + "#" + "1" + "" + "#!"
      == "!#register#jon#new-user#1#!";
    SmallDecimals();
    PackedPieces(m);
  }

  lemma UnpackRegisterVector(s: string)
    requires s == "!#register#jon#new-user#1#!"
    ensures UnpackDefined(s) && Unpack(s) == Some(TextMessage("register", Some("jon"), "new-user", 1, None))
  {
    var m := TextMessage("register", Some("jon"), "new-user", 1, None);
    assert ArgOnlyCommand(m.cmd);
    assert IsField("jon") && IsField("new-user");
    RoundTrip(m);
    PackRegisterVector(m);
  }

  lemma PackRoomMessageVector(m: TextMessage)
    requires m == TextMessage("roommessage", Some("main"), "jon", 1, Some("hello main!"))
    ensures Packed(m) == "!#roommessage#main#jon#1#hello main!#!"
  {
    assert "!#" + m.cmd + ("#" + m.arg.value) + "#" + m.sender + "#" + "1" + ("#" + m.content.value) + "#!"
      == "!#roommessage#main#jon#1#hello main!#!";
    SmallDecimals();
    PackedPieces(m);
  }

  lemma UnpackRoomMessageVector(s: string)
    requires s == "!#roommessage#main#jon#1#hello main!#!"
    ensures UnpackDefined(s) && Unpack(s) == Some(TextMessage("roommessage", Some("main"), "jon", 1, Some("hello main!")))
  {
    var m := TextMessage("roommessage", Some("main"), "jon", 1, Some("hello main!"));
    assert ArgContentCommand(m.cmd);
    assert IsField("main") && IsField("jon") && IsField("hello main!");
    RoundTrip(m);
    PackRoomMessageVector(m);
  }

  lemma PackUsersVector(m: TextMessage)
    requires m == TextMessage("users", None, "server", 0, Some("jon,jack,peter"))
    ensures Packed(m) == "!#users#server#0#jon,jack,peter#!"
  {
    assert "!#" + m.cmd + "" + "#" + m.sender + "#" + "0" + ("#" + m.content.value) + "#!"
      == "!#users#server#0#jon,jack,peter#!";
    SmallDecimals();
    PackedPieces(m);
  }

  lemma UnpackUsersVector(s: string)
    requires s == "!#users#server#0#jon,jack,peter#!"
    ensures UnpackDefined(s) && Unpack(s) == Some(TextMessage("users", None, "server", 0, Some("jon,jack,peter")))
  {
    var m := TextMessage("users", None, "server", 0, Some("jon,jack,peter"));
    assert ContentOnlyCommand(m.cmd);
    assert IsField("server") && IsField("jon,jack,peter");
    RoundTrip(m);
    PackUsersVector(m);
  }

  lemma PackRoomsVector(m: TextMessage)
    requires m == TextMessage("rooms", None, "server", 0, Some("main,other-room,tech"))
    ensures Packed(m) == "!#rooms#server#0#main,other-room,tech#!"
  {
    assert "!#" + m.cmd + "" + "#" + m.sender + "#" + "0" + ("#" + m.content.value) + "#!"
      == "!#rooms#server#0#main,other-room,tech#!";
    SmallDecimals();
    PackedPieces(m);
  }

  lemma UnpackRoomsVector(s: string)
    requires s == "!#rooms#server#0#main,other-room,tech#!"
    ensures UnpackDefined(s) && Unpack(s) == Some(TextMessage("rooms", None, "server", 0, Some("main,other-room,tech")))
  {
    var m := TextMessage("rooms", None, "server", 0, Some("main,other-room,tech"));
    assert ContentOnlyCommand(m.cmd);
    assert IsField("server") && IsField("main,other-room,tech");
    RoundTrip(m);
    PackRoomsVector(m);
  }
}
