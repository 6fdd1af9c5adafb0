/**
 * The handful of Rust string operations the chat code relies on, stated over
 * `seq<char>`: `str::split` with a separator, `split_whitespace`, `trim`,
 * `join`, `u64::to_string` and `u64::from_str`.
 */
module Text {
  import opened Wrappers

  /** The separators the wire formats use. */
  predicate IsHash(c: char) { c == '#' }

  predicate IsComma(c: char) { c == ',' }

  /** Rust's `char::is_whitespace`: the Unicode White_Space property. */
  predicate IsWhitespace(c: char) {
    var n := c as int;
    (9 <= n <= 13) || n == 32 || n == 0x85 || n == 0xA0 || n == 0x1680
    || (0x2000 <= n <= 0x200A) || n == 0x2028 || n == 0x2029 || n == 0x202F
    || n == 0x205F || n == 0x3000
  }

  /** A word as `split_whitespace` yields it: non-empty, without whitespace. */
  predicate IsWord(w: string) {
    w != [] && forall i :: 0 <= i < |w| ==> !IsWhitespace(w[i])
  }

  predicate AllWords(ws: seq<string>) {
    forall i :: 0 <= i < |ws| ==> IsWord(ws[i])
  }

  predicate Free(s: string, isSep: char -> bool) {
    forall i :: 0 <= i < |s| ==> !isSep(s[i])
  }

  // ---------------------------------------------------------------------------
  // Splitting
  // ---------------------------------------------------------------------------

  /**
   * `s.split(sep)`: the pieces between separators, empty pieces included, so
   * there is always one more piece than there are separators.
   */
  function SplitOn(s: string, isSep: char -> bool): (r: seq<string>)
    ensures |r| >= 1
    ensures forall i :: 0 <= i < |r| ==> Free(r[i], isSep)
  {
    if s == [] then [""]
    else
      var rest := SplitOn(s[1..], isSep);
      if isSep(s[0]) then [""] + rest
      else [[s[0]] + rest[0]] + rest[1..]
  }

  /** `.filter(|s| !s.is_empty())` */
  function NonEmpty(xs: seq<string>): (r: seq<string>)
    ensures forall i :: 0 <= i < |r| ==> r[i] != "" && r[i] in xs
    ensures forall x :: x in xs && x != "" ==> x in r
  {
    if xs == [] then []
    else if xs[0] == "" then NonEmpty(xs[1..])
    else [xs[0]] + NonEmpty(xs[1..])
  }

  /** `s.split_whitespace()` */
  function Words(s: string): seq<string> {
    NonEmpty(SplitOn(s, IsWhitespace))
  }

  /** `parts.join(sep)` */
  function JoinWith(parts: seq<string>, sep: string): string {
    if parts == [] then ""
    else if |parts| == 1 then parts[0]
    else parts[0] + sep + JoinWith(parts[1..], sep)
  }

  /** Each part followed by a space, as the `message += part; message += " "` loops build it. */
  function Spaced(parts: seq<string>): string {
    if parts == [] then "" else Spaced(parts[..|parts| - 1]) + parts[|parts| - 1] + " "
  }

  function TrimStart(s: string): string {
    if s != [] && IsWhitespace(s[0]) then TrimStart(s[1..]) else s
  }

  function TrimEnd(s: string): string {
    if s != [] && IsWhitespace(s[|s| - 1]) then TrimEnd(s[..|s| - 1]) else s
  }

  /** `s.trim()` */
  function Trim(s: string): string {
    TrimEnd(TrimStart(s))
  }

  // ---------------------------------------------------------------------------
  // Lemmas about splitting and joining
  // ---------------------------------------------------------------------------

  lemma {:induction false} SplitOnFree(s: string, isSep: char -> bool)
    requires Free(s, isSep)
    ensures SplitOn(s, isSep) == [s]
  {
    if s != [] {
      assert Free(s[1..], isSep) by {
        forall i | 0 <= i < |s[1..]| ensures !isSep(s[1..][i]) {
          assert s[1..][i] == s[i + 1];
        }
      }
      SplitOnFree(s[1..], isSep);
      assert s == [s[0]] + s[1..];
    }
  }

  /** A separator cuts the split in two. */
  lemma {:induction false} SplitOnAppend(a: string, c: char, b: string, isSep: char -> bool)
    requires isSep(c)
    ensures SplitOn(a + [c] + b, isSep) == SplitOn(a, isSep) + SplitOn(b, isSep)
  {
    var s := a + [c] + b;
    if a == [] {
      assert s[0] == c && s[1..] == b;
    } else {
      assert s[0] == a[0] && s[1..] == a[1..] + [c] + b;
      SplitOnAppend(a[1..], c, b, isSep);
      var left := SplitOn(a[1..], isSep);
      var right := SplitOn(b, isSep);
      assert SplitOn(s[1..], isSep) == left + right;
      if !isSep(a[0]) {
        assert (left + right)[1..] == left[1..] + right;
      }
    }
  }

  /** Splitting on a single character and joining again with it gives the input back. */
  lemma {:induction false} JoinSplit(s: string, c: char, isSep: char -> bool)
    requires forall x :: isSep(x) <==> x == c
    ensures JoinWith(SplitOn(s, isSep), [c]) == s
  {
    if s != [] {
      JoinSplit(s[1..], c, isSep);
      var rest := SplitOn(s[1..], isSep);
      if isSep(s[0]) {
        assert s == [c] + s[1..];
      } else {
        var r := [[s[0]] + rest[0]] + rest[1..];
        if |rest| == 1 {
          assert JoinWith(r, [c]) == [s[0]] + rest[0];
        } else {
          assert r[1..] == rest[1..];
          assert JoinWith(rest, [c]) == rest[0] + [c] + JoinWith(rest[1..], [c]);
        }
        assert s == [s[0]] + s[1..];
      }
    }
  }

  /** Joining pieces free of the separator and splitting again gives the pieces back. */
  lemma {:induction false} SplitJoin(parts: seq<string>, c: char, isSep: char -> bool)
    requires parts != [] && isSep(c)
    requires forall i :: 0 <= i < |parts| ==> Free(parts[i], isSep)
    ensures SplitOn(JoinWith(parts, [c]), isSep) == parts
  {
    if |parts| == 1 {
      SplitOnFree(parts[0], isSep);
    } else {
      SplitJoin(parts[1..], c, isSep);
      SplitOnFree(parts[0], isSep);
      SplitOnAppend(parts[0], c, JoinWith(parts[1..], [c]), isSep);
    }
  }

  lemma {:induction false} NonEmptyAppend(xs: seq<string>, ys: seq<string>)
    ensures NonEmpty(xs + ys) == NonEmpty(xs) + NonEmpty(ys)
  {
    if xs != [] {
      var zs := xs + ys;
      assert zs[0] == xs[0] && zs[1..] == xs[1..] + ys;
      NonEmptyAppend(xs[1..], ys);
      if xs[0] == "" {
        assert NonEmpty(zs) == NonEmpty(xs[1..] + ys);
      } else {
        assert NonEmpty(zs) == [xs[0]] + NonEmpty(xs[1..] + ys);
        assert NonEmpty(xs) == [xs[0]] + NonEmpty(xs[1..]);
      }
    } else {
      assert xs + ys == ys;
      assert NonEmpty(xs) == [];
      assert [] + NonEmpty(ys) == NonEmpty(ys);
    }
  }

  lemma {:induction false} NonEmptyWords(xs: seq<string>)
    requires forall i :: 0 <= i < |xs| ==> xs[i] != ""
    ensures NonEmpty(xs) == xs
  {
    if xs != [] {
      NonEmptyWords(xs[1..]);
    }
  }

  /** Every piece `split_whitespace` yields is a word. */
  lemma WordsAreWords(s: string)
    ensures AllWords(Words(s))
  {
    var w := Words(s);
    forall i | 0 <= i < |w| ensures IsWord(w[i]) {
      var pieces := SplitOn(s, IsWhitespace);
      assert w[i] in pieces;
      var j :| 0 <= j < |pieces| && pieces[j] == w[i];
      assert Free(pieces[j], IsWhitespace);
    }
  }

  /** A run of whitespace counts as one separator: doubling a whitespace character changes no word. */
  lemma WordsExtraWhitespace(a: string, c: char, b: string)
    requires IsWhitespace(c)
    ensures Words(a + [c] + [c] + b) == Words(a + [c] + b)
  {
    SplitOnAppend(a, c, [c] + b, IsWhitespace);
    assert a + [c] + ([c] + b) == a + [c] + [c] + b;
    SplitOnAppend([], c, b, IsWhitespace);
    assert [] + [c] + b == [c] + b;
    SplitOnAppend(a, c, b, IsWhitespace);
    NonEmptyAppend(SplitOn(a, IsWhitespace), SplitOn([c] + b, IsWhitespace));
    NonEmptyAppend(SplitOn([], IsWhitespace), SplitOn(b, IsWhitespace));
    NonEmptyAppend(SplitOn(a, IsWhitespace), SplitOn(b, IsWhitespace));
  }

  /** Leading whitespace changes no word. */
  lemma WordsLeadingWhitespace(c: char, s: string)
    requires IsWhitespace(c)
    ensures Words([c] + s) == Words(s)
  {
    SplitOnAppend([], c, s, IsWhitespace);
    assert [] + [c] + s == [c] + s;
    NonEmptyAppend(SplitOn([], IsWhitespace), SplitOn(s, IsWhitespace));
  }

  lemma {:induction false} JoinWithSnoc(parts: seq<string>, x: string, sep: string)
    requires parts != []
    ensures JoinWith(parts + [x], sep) == JoinWith(parts, sep) + sep + x
  {
    if |parts| == 1 {
      assert parts + [x] == [parts[0], x];
    } else {
      JoinWithSnoc(parts[1..], x, sep);
      assert (parts + [x])[1..] == parts[1..] + [x];
    }
  }

  lemma {:induction false} SpacedJoin(parts: seq<string>)
    requires parts != []
    ensures Spaced(parts) == JoinWith(parts, " ") + " "
    decreases |parts|
  {
    var init := parts[..|parts| - 1];
    if init == [] {
      assert parts == [parts[0]];
    } else {
      SpacedJoin(init);
      JoinWithSnoc(init, parts[|parts| - 1], " ");
      assert init + [parts[|parts| - 1]] == parts;
    }
  }

  lemma {:induction false} JoinWordsEnds(parts: seq<string>)
    requires parts != [] && AllWords(parts)
    ensures var j := JoinWith(parts, " ");
      j != [] && !IsWhitespace(j[0]) && !IsWhitespace(j[|j| - 1])
  {
    if |parts| > 1 {
      JoinWordsEnds(parts[1..]);
      var j := JoinWith(parts, " ");
      var tail := JoinWith(parts[1..], " ");
      assert j == parts[0] + " " + tail;
      assert j[0] == parts[0][0];
      assert j[|j| - 1] == tail[|tail| - 1];
    }
  }

  lemma TrimEndSpace(s: string, c: char)
    requires IsWhitespace(c) && s != [] && !IsWhitespace(s[|s| - 1])
    ensures TrimEnd(s + [c]) == s
  {
    assert (s + [c])[..|s + [c]| - 1] == s;
  }

  /**
   * What the accumulation loops of both `parse_command`s compute: the words
   * followed by a space each, trimmed, is the words joined by single spaces.
   */
  lemma TrimSpaced(parts: seq<string>)
    requires AllWords(parts)
    ensures Trim(Spaced(parts)) == JoinWith(parts, " ")
  {
    if parts != [] {
      SpacedJoin(parts);
      JoinWordsEnds(parts);
      var j := JoinWith(parts, " ");
      assert TrimStart(j + " ") == j + " ";
      TrimEndSpace(j, ' ');
    }
  }

  /**
   * The accumulation loop of both `parse_command`s: every remaining token
   * followed by one space, and the whole trimmed at the end.
   */
  method JoinRemaining(parts: seq<string>) returns (message: string)
    requires AllWords(parts)
    ensures message == JoinWith(parts, " ")
    ensures message == "" <==> parts == []
  {
    message := "";
    var i := 0;
    while i < |parts|
      invariant 0 <= i <= |parts|
      invariant message == Spaced(parts[..i])
    {
      assert parts[..i + 1][..i] == parts[..i];
      message := message + parts[i] + " ";
      i := i + 1;
    }
    assert parts[..|parts|] == parts;
    message := Trim(message);
    TrimSpaced(parts);
    if parts != [] {
      JoinWordsEnds(parts);
    }
  }

  // ---------------------------------------------------------------------------
  // Decimal numbers
  // ---------------------------------------------------------------------------

  /** One more than the largest `u64`. */
  const U64_LIMIT: nat := 0x1_0000_0000_0000_0000

  /** Rust's `u64`. */
  type U64 = n: int | 0 <= n < U64_LIMIT

  predicate IsDigit(c: char) { '0' <= c <= '9' }

  predicate AllDigits(s: string) {
    forall i :: 0 <= i < |s| ==> IsDigit(s[i])
  }

  function DigitChar(d: nat): (c: char)
    requires d < 10
    ensures IsDigit(c) && (c as int) - ('0' as int) == d
  {
    (('0' as int) + d) as char
  }

  /** The number a string of decimal digits denotes. */
  function DecimalValue(s: string): nat
    requires AllDigits(s)
  {
    if s == [] then 0
    else DecimalValue(s[..|s| - 1]) * 10 + ((s[|s| - 1] as int) - ('0' as int))
  }

  /** `n.to_string()` for an unsigned integer: decimal digits, no sign, no leading zero. */
  function ToDecimal(n: nat): (s: string)
    ensures s != [] && AllDigits(s)
    ensures |s| > 1 ==> s[0] != '0'
  {
    if n < 10 then [DigitChar(n)] else ToDecimal(n / 10) + [DigitChar(n % 10)]
  }

  lemma {:induction false} DecimalValueOfToDecimal(n: nat)
    ensures DecimalValue(ToDecimal(n)) == n
  {
    if n >= 10 {
      DecimalValueOfToDecimal(n / 10);
      var s := ToDecimal(n);
      assert s[..|s| - 1] == ToDecimal(n / 10);
    }
  }

  /**
   * `s.parse::<u64>()`: an optional `+`, then one or more decimal digits whose
   * value fits in 64 bits; anything else is an error.
   */
  function ParseU64(s: string): Option<U64> {
    var digits := if |s| > 0 && s[0] == '+' then s[1..] else s;
    if digits == [] || !AllDigits(digits) then None
    else
      var v := DecimalValue(digits);
      if v < U64_LIMIT then Some(v) else None
  }

  /** `to_string` and `parse::<u64>` are inverse on every `u64`. */
  lemma ParseToDecimal(n: nat)
    requires n < U64_LIMIT
    ensures ParseU64(ToDecimal(n)) == Some(n)
  {
    DecimalValueOfToDecimal(n);
  }

  /** A string holding a non-digit after its first character does not parse. */
  lemma ParseU64Rejects(s: string, i: nat)
    requires 0 < i < |s| && !IsDigit(s[i])
    ensures ParseU64(s) == None
  {
    var digits := if |s| > 0 && s[0] == '+' then s[1..] else s;
    if s[0] == '+' {
      assert digits[i - 1] == s[i];
    } else {
      assert digits[i] == s[i];
    }
  }

  // ---------------------------------------------------------------------------
  // Listing the keys of a hash map
  // ---------------------------------------------------------------------------

  predicate NoDuplicates<T(==)>(xs: seq<T>) {
    forall i, j :: 0 <= i < j < |xs| ==> xs[i] != xs[j]
  }

  /** `order` lists every element of `keys` exactly once, in some order. */
  ghost predicate IsOrdering<T(!new)>(order: seq<T>, keys: set<T>) {
    NoDuplicates(order) && (forall x :: x in order <==> x in keys)
  }

  /**
   * `map.into_keys().collect::<Vec<String>>().join(",")`: the keys in the
   * map's own (unspecified) iteration order, separated by commas.
   */
  method JoinKeys(keys: set<string>) returns (joined: string, ghost order: seq<string>)
    ensures IsOrdering(order, keys)
    ensures joined == JoinWith(order, ",")
  {
    var rest := keys;
    var pieces: seq<string> := [];
    while rest != {}
      invariant NoDuplicates(pieces)
      invariant forall x :: x in pieces <==> x in keys && x !in rest
      invariant rest <= keys
      decreases |rest|
    {
      var k :| k in rest;
      pieces := pieces + [k];
      rest := rest - {k};
    }
    joined := JoinWith(pieces, ",");
    order := pieces;
  }
}
