/**
  Joining a list of lines with a separator, as Go's `strings.Join` does, and
  its partner, splitting a text at every occurrence of one separator character
  (Go's `strings.Split` with a one-character separator). The script text of a
  task is built with `Join`; `Split` is the reference that reads the lines back.
 */
module Lines {

  /** The position of the first occurrence of `c` in `s`. */
  function IndexOf(s: string, c: char): (i: nat)
    requires c in s
    ensures i < |s| && s[i] == c
    ensures c !in s[..i]
  {
    if s[0] == c then 0
    else
      assert c in s[1..] by { assert s == [s[0]] + s[1..]; }
      var j := IndexOf(s[1..], c);
      assert s[..j + 1] == [s[0]] + s[1..][..j];
      1 + j
  }

  /** A separator that follows a prefix free of it is found right after that prefix. */
  lemma IndexOfAfter(x: string, c: char, y: string)
    requires c !in x
    ensures c in x + [c] + y
    ensures IndexOf(x + [c] + y, c) == |x|
  {
    var s := x + [c] + y;
    assert s[|x|] == c;
  }

  /**
    The elements of `elems` with `sep` between each pair and nothing before the
    first or after the last; the empty list gives the empty text.
   */
  function Join(elems: seq<string>, sep: string): string
    decreases |elems|
  {
    if |elems| == 0 then ""
    else if |elems| == 1 then elems[0]
    else elems[0] + sep + Join(elems[1..], sep)
  }

  /**
    A joined text starts with the first element and ends with the last one:
    nothing is put before the first line or after the last.
   */
  lemma {:induction false} JoinEnds(elems: seq<string>, sep: string)
    requires |elems| > 0
    ensures var r, last := Join(elems, sep), elems[|elems| - 1];
      && elems[0] <= r
      && |last| <= |r| && r[|r| - |last|..] == last
    decreases |elems|
  {
    if |elems| > 1 {
      JoinEnds(elems[1..], sep);
      var r, rest := Join(elems, sep), Join(elems[1..], sep);
      assert r == elems[0] + sep + rest;
      assert r[..|elems[0]|] == elems[0];
      assert elems[1..][|elems[1..]| - 1] == elems[|elems| - 1];
      assert r[|r| - |rest|..] == rest;
    }
  }

  /**
    The pieces of `s` between occurrences of `c`: one more piece than there are
    occurrences, none of them containing `c`. The empty text gives one empty piece.
   */
  function Split(s: string, c: char): (parts: seq<string>)
    ensures |parts| > 0
    ensures forall k :: 0 <= k < |parts| ==> c !in parts[k]
    ensures parts[0] <= s
    decreases |s|
  {
    if c in s then
      var i := IndexOf(s, c);
      [s[..i]] + Split(s[i + 1..], c)
    else [s]
  }

  /** The first piece of a text is exactly the text up to its first separator. */
  lemma SplitFirst(x: string, c: char, y: string)
    requires c !in x
    ensures Split(x + [c] + y, c) == [x] + Split(y, c)
  {
    var s := x + [c] + y;
    IndexOfAfter(x, c, y);
    assert s[..|x|] == x;
    assert s[|x| + 1..] == y;
  }

  /** Splitting the joined lines gives the lines back, when no line holds the separator. */
  lemma {:induction false} SplitJoin(lines: seq<string>, c: char)
    requires |lines| > 0
    requires forall k :: 0 <= k < |lines| ==> c !in lines[k]
    ensures Split(Join(lines, [c]), c) == lines
    decreases |lines|
  {
    if |lines| == 1 {
      assert Join(lines, [c]) == lines[0];
    } else {
      SplitJoin(lines[1..], c);
      SplitFirst(lines[0], c, Join(lines[1..], [c]));
      assert lines == [lines[0]] + lines[1..];
    }
  }

  /** Joining the pieces of a text with the separator gives the text back. */
  lemma {:induction false} JoinSplit(s: string, c: char)
    ensures Join(Split(s, c), [c]) == s
    decreases |s|
  {
    if c in s {
      var i := IndexOf(s, c);
      var rest := s[i + 1..];
      JoinSplit(rest, c);
      var parts := Split(s, c);
      assert parts == [s[..i]] + Split(rest, c);
      assert parts[1..] == Split(rest, c);
      assert s == s[..i] + [c] + rest;
    }
  }

  /**
    The first line of a joined text is the first element, whatever the other
    elements hold, as long as the first one is free of the separator.
   */
  lemma FirstLineOfJoin(lines: seq<string>, c: char)
    requires |lines| > 0 && c !in lines[0]
    ensures Split(Join(lines, [c]), c)[0] == lines[0]
  {
    if |lines| > 1 {
      SplitFirst(lines[0], c, Join(lines[1..], [c]));
    }
  }
}
