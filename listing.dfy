/**
 * The comma-separated listings that every client prints the same way: the
 * content is split on commas (or kept whole when it has none), and shown as a
 * header, one bracketed line per item and a footer.
 */
module Listing {
  import opened Text

  const EndOfList := "[-] End of list"

  /**
   * The items of a listing: `content.split(",")` when the content contains a
   * comma, otherwise the content alone. Both branches agree with a plain
   * split on commas.
   */
  function ListItems(content: string): (items: seq<string>)
    ensures items == SplitOn(content, IsComma)
    ensures |items| >= 1
  {
    if ',' in content then SplitOn(content, IsComma)
    else
      assert Free(content, IsComma);
      SplitOnFree(content, IsComma);
      [content]
  }

  /** `format!("[{item}]")` for every item, in order. */
  function Bracketed(items: seq<string>): (lines: seq<string>)
    ensures |lines| == |items|
  {
    if items == [] then [] else ["[" + items[0] + "]"] + Bracketed(items[1..])
  }

  lemma {:induction false} BracketedItems(items: seq<string>)
    ensures forall i :: 0 <= i < |items| ==> Bracketed(items)[i] == "[" + items[i] + "]"
  {
    if items != [] {
      BracketedItems(items[1..]);
    }
  }

  /** A header, one bracketed line per item, and the footer. */
  function ListingLines(header: string, items: seq<string>): (lines: seq<string>)
    ensures |lines| == |items| + 2
  {
    [header] + Bracketed(items) + [EndOfList]
  }

  /** A listing starts with its header, ends with the footer, and shows each item in brackets. */
  lemma ListingLinesShape(header: string, items: seq<string>)
    ensures var lines := ListingLines(header, items);
      && lines[0] == header && lines[|lines| - 1] == EndOfList
      && forall i :: 0 <= i < |items| ==> lines[i + 1] == "[" + items[i] + "]"
  {
    BracketedItems(items);
  }

  lemma ListingLinesUnfold(header: string, items: seq<string>)
    ensures ListingLines(header, items) == [header] + Bracketed(items) + [EndOfList]
  {
  }

  lemma AppendAssoc<T>(a: seq<T>, b: seq<T>, c: seq<T>, d: seq<T>)
    ensures a + b + c + d == a + (b + c + d)
  {
  }

  /** Bracketing the items one more at a time, as the `for` loops of the clients do. */
  lemma BracketedSnoc(items: seq<string>, i: nat)
    requires i < |items|
    ensures Bracketed(items[..i + 1]) == Bracketed(items[..i]) + ["[" + items[i] + "]"]
  {
    var a := Bracketed(items[..i + 1]);
    var b := Bracketed(items[..i]) + ["[" + items[i] + "]"];
    assert |a| == |b|;
    BracketedItems(items[..i + 1]);
    BracketedItems(items[..i]);
    forall k | 0 <= k < |a| ensures a[k] == b[k] {
      assert items[..i + 1][k] == items[k];
      if k < i {
        assert items[..i][k] == items[k];
      }
    }
  }

  /**
   * A listing of `n` comma-separated items shows `n + 2` lines; its item
   * lines give the items back in order.
   */
  lemma ListingOfJoined(header: string, items: seq<string>)
    requires items != [] && forall i :: 0 <= i < |items| ==> Free(items[i], IsComma)
    ensures ListItems(JoinWith(items, ",")) == items
    ensures |ListingLines(header, ListItems(JoinWith(items, ",")))| == |items| + 2
  {
    SplitJoin(items, ',', IsComma);
  }
}
