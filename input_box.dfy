/**
 * The line editor of the first-generation client's terminal interface
 * (client/src/tui/components/input_box.rs): the typed text, a cursor counted
 * in characters, and the channel on which finished lines and the quit key
 * are sent as actions.
 */
module InputBox {
  import opened ClientAction

  /** The number of bytes UTF-8 takes for a character. */
  function Utf8Width(c: char): (w: nat)
    ensures 1 <= w <= 4
    ensures w == 1 <==> (c as int) < 0x80
  {
    if (c as int) < 0x80 then 1
    else if (c as int) < 0x800 then 2
    else if (c as int) < 0x1_0000 then 3
    else 4
  }

  /** The number of bytes UTF-8 takes for a string (`String::len`). */
  function Utf8Len(s: seq<char>): nat {
    if s == [] then 0 else Utf8Len(s[..|s| - 1]) + Utf8Width(s[|s| - 1])
  }

  /** The byte offset at which each character starts (`char_indices().map(|(i, _)| i)`). */
  function CharStarts(s: seq<char>): (r: seq<nat>)
    ensures |r| == |s|
    ensures forall i :: 0 <= i < |r| ==> r[i] + Utf8Width(s[i]) <= Utf8Len(s)
  {
    if s == [] then []
    else
      var init := s[..|s| - 1];
      assert forall i :: 0 <= i < |init| ==> s[i] == init[i];
      CharStarts(init) + [Utf8Len(init)]
  }

  /** `byte_index`: the start of the `charIndex`-th character, or the length when there is none. */
  function ByteIndex(s: seq<char>, charIndex: nat): nat {
    var starts := CharStarts(s);
    if charIndex < |starts| then starts[charIndex] else Utf8Len(s)
  }

  lemma {:induction false} CharStartsArePrefixLengths(s: seq<char>, i: nat)
    requires i < |s|
    ensures CharStarts(s)[i] == Utf8Len(s[..i])
    decreases |s|
  {
    var init := s[..|s| - 1];
    if i < |init| {
      CharStartsArePrefixLengths(init, i);
      assert init[..i] == s[..i];
    } else {
      assert init == s[..i];
    }
  }

  /**
   * The byte index of a cursor is the byte length of the text in front of it,
   * so `String::insert` at that index inserts at the cursor's character
   * position.
   */
  lemma ByteIndexIsPrefixLength(s: seq<char>, charIndex: nat)
    requires charIndex <= |s|
    ensures ByteIndex(s, charIndex) == Utf8Len(s[..charIndex])
  {
    if charIndex < |s| {
      CharStartsArePrefixLengths(s, charIndex);
    } else {
      assert s[..charIndex] == s;
    }
  }

  datatype KeyEventKind = Press | Repeat | Release

  datatype KeyCode = Char(c: char) | Backspace | Enter | Left | Right | OtherKey

  datatype KeyEvent = KeyEvent(code: KeyCode, kind: KeyEventKind)

  class InputBox {
    /** The cursor, counted in characters from the start of the line. */
    var charIndex: nat
    var input: seq<char>
    /** The actions sent on `action_tx`, oldest first. */
    var sent: seq<Action>

    /** The bounds invariant: the cursor never passes the end of the text. */
    ghost predicate Valid()
      reads this
    {
      charIndex <= |input|
    }

    /** `Component::new` */
    constructor ()
      ensures Valid() && charIndex == 0 && input == [] && sent == []
    {
      charIndex := 0;
      input := [];
      sent := [];
    }

    /** `clamp_cursor`: the position brought within the text. */
    function ClampCursor(newPos: nat): (r: nat)
      reads this
      ensures r <= |input|
      ensures newPos <= |input| ==> r == newPos
      ensures newPos > |input| ==> r == |input|
    {
      if newPos > |input| then |input| else newPos
    }

    /** Also called while the cursor is one past the end, right after a deletion. */
    method CursorLeft()
      modifies this
      ensures Valid()
      ensures old(charIndex) <= |input| ==>
        charIndex == if old(charIndex) == 0 then 0 else old(charIndex) - 1
      ensures old(charIndex) > |input| ==> charIndex == |input|
      ensures input == old(input) && sent == old(sent)
    {
      var movedLeft := if charIndex == 0 then 0 else charIndex - 1;
      charIndex := ClampCursor(movedLeft);
    }

    method CursorRight()
      modifies this
      ensures Valid()
      ensures charIndex == if old(charIndex) < |input| then old(charIndex) + 1 else |input|
      ensures input == old(input) && sent == old(sent)
    {
      var movedRight := charIndex + 1;
      charIndex := ClampCursor(movedRight);
    }

    /** Inserts `c` at the cursor and moves the cursor past it. */
    method EnterChar(c: char)
      requires Valid()
      modifies this
      ensures Valid()
      ensures input == old(input)[..old(charIndex)] + [c] + old(input)[old(charIndex)..]
      ensures charIndex == old(charIndex) + 1
      ensures sent == old(sent)
    {
      // `String::insert` puts `c` at the byte index, which is the byte length
      // of the characters in front of the cursor: the cursor's character position.
      var index := ByteIndex(input, charIndex);
      ByteIndexIsPrefixLength(input, charIndex);
      assert index == Utf8Len(input[..charIndex]);
      input := input[..charIndex] + [c] + input[charIndex..];
      assert |input| == |old(input)| + 1;
      CursorRight();
    }

    /** Removes the character in front of the cursor, if there is one. */
    method DeleteChar()
      requires Valid()
      modifies this
      ensures Valid()
      ensures old(charIndex) == 0 ==> input == old(input) && charIndex == 0
      ensures old(charIndex) != 0 ==>
        input == old(input)[..old(charIndex) - 1] + old(input)[old(charIndex)..]
        && charIndex == old(charIndex) - 1
      ensures sent == old(sent)
    {
      if charIndex != 0 {
        var currIndex := charIndex;
        var fromLeft := currIndex - 1;
        input := input[..fromLeft] + input[currIndex..];
        CursorLeft();
      }
    }

    method ResetCursor()
      modifies this
      ensures Valid() && charIndex == 0
      ensures input == old(input) && sent == old(sent)
    {
      charIndex := 0;
    }

    /**
     * `submit_msg`: the input is cleared BEFORE it is copied into the `Send`
     * action, so the action always carries the empty string.
     */
    method SubmitMsg()
      requires Valid()
      modifies this
      ensures Valid() && input == [] && charIndex == 0
      ensures sent == old(sent) + [Send("")]
    {
      input := [];
      sent := sent + [Send(input)];
      ResetCursor();
    }

    /** `update`: the box is handed back as it is. */
    method Update() returns (b: InputBox)
      ensures b == this
    {
      b := this;
    }

    /**
     * `handle_key_event`: only key presses act; `q` sends `Quit` and is not
     * typed, any other character is typed.
     */
    method HandleKeyEvent(key: KeyEvent)
      requires Valid()
      modifies this
      ensures Valid()
      ensures key.kind != Press || key.code.OtherKey? ==> unchanged(this)
      ensures key.kind == Press && key.code == Char('q') ==>
        input == old(input) && charIndex == old(charIndex) && sent == old(sent) + [Quit]
      ensures key.kind == Press && key.code.Char? && key.code.c != 'q' ==>
        input == old(input)[..old(charIndex)] + [key.code.c] + old(input)[old(charIndex)..]
        && charIndex == old(charIndex) + 1 && sent == old(sent)
      ensures key.kind == Press && key.code.Enter? ==>
        input == [] && charIndex == 0 && sent == old(sent) + [Send("")]
      ensures key.kind == Press && key.code.Backspace? ==>
        && (old(charIndex) == 0 ==> input == old(input) && charIndex == 0)
        && (old(charIndex) != 0 ==>
              input == old(input)[..old(charIndex) - 1] + old(input)[old(charIndex)..]
              && charIndex == old(charIndex) - 1)
        && sent == old(sent)
      ensures key.kind == Press && key.code.Left? ==>
        input == old(input) && sent == old(sent)
        && charIndex == if old(charIndex) == 0 then 0 else old(charIndex) - 1
      ensures key.kind == Press && key.code.Right? ==>
        input == old(input) && sent == old(sent)
        && charIndex == if old(charIndex) < |input| then old(charIndex) + 1 else |input|
    {
      if key.kind != Press {
        return;
      }
      match key.code
      case Char(c) =>
        if c == 'q' {
          sent := sent + [Quit];
        } else {
          EnterChar(c);
        }
      case Backspace =>
        DeleteChar();
      case Enter =>
        SubmitMsg();
      case Left =>
        CursorLeft();
      case Right =>
        CursorRight();
      case OtherKey =>
    }
  }
}
