/** The ECMAScript string operations the services are built on: split and join at one character. */
module Strings {

  /** The first position of `c` in `s`, or -1. */
  function IndexOf(s: string, c: char): (i: int)
    ensures -1 <= i < |s|
    ensures i < 0 ==> c !in s
    ensures i >= 0 ==> s[i] == c && c !in s[..i]
  {
    if s == "" then -1
    else if s[0] == c then 0
    else
      var rest := IndexOf(s[1..], c);
      if rest < 0 then -1 else
        assert s[..rest + 1] == [s[0]] + s[1..][..rest];
        rest + 1
  }

  function Split(s: string, c: char): (parts: seq<string>)
    ensures parts != []
    decreases |s|
  {
    var i := IndexOf(s, c);
    if i < 0 then [s] else [s[..i]] + Split(s[i + 1..], c)
  }

  function Join(parts: seq<string>, c: char): string
  {
    if parts == [] then ""
    else if |parts| == 1 then parts[0]
    else parts[0] + [c] + Join(parts[1..], c)
  }

  /** No string of `parts` holds the character `c`. */
  ghost predicate AllFree(parts: seq<string>, c: char)
  {
    forall i :: 0 <= i < |parts| ==> c !in parts[i]
  }

  /** The text before the first separator is the first piece, the rest is split on. */
  lemma SplitHead(head: string, c: char, tail: string)
    requires c !in head
    ensures Split(head, c) == [head]
    ensures Split(head + [c] + tail, c) == [head] + Split(tail, c)
  {
    var s := head + [c] + tail;
    var i := IndexOf(s, c);
    assert s[|head|] == c;
    assert forall k :: 0 <= k < |head| ==> s[k] == head[k];
    assert forall k :: 0 <= k < i ==> s[..i][k] == s[k];
    assert i == |head|;
    assert s[..|head|] == head && s[|head| + 1..] == tail;
  }

  lemma JoinHead(head: string, tail: seq<string>, c: char)
    requires tail != []
    ensures Join([head] + tail, c) == head + [c] + Join(tail, c)
  {
    assert ([head] + tail)[1..] == tail;
  }

  lemma JoinOfFour(a: string, b: string, c: string, d: string, sep: char)
    ensures Join([a, b, c, d], sep) == a + [sep] + (b + [sep] + (c + [sep] + d))
  {
    assert [a, b, c, d] == [a] + [b, c, d] && [b, c, d] == [b] + [c, d] && [c, d] == [c] + [d];
    JoinHead(a, [b, c, d], sep);
    JoinHead(b, [c, d], sep);
    JoinHead(c, [d], sep);
  }

  lemma JoinOfSix(a: string, b: string, c: string, d: string, e: string, f: string, sep: char)
    ensures Join([a, b, c, d, e, f], sep) == a + [sep] + (b + [sep] + (c + [sep] + (d + [sep] + (e + [sep] + f))))
  {
    assert [a, b, c, d, e, f] == [a] + [b, c, d, e, f] && [b, c, d, e, f] == [b] + [c, d, e, f];
    JoinHead(a, [b, c, d, e, f], sep);
    JoinHead(b, [c, d, e, f], sep);
    JoinOfFour(c, d, e, f, sep);
  }

  /** Splitting loses nothing: joining the pieces gives the text back. */
  lemma {:induction false} JoinOfSplit(s: string, c: char)
    ensures Join(Split(s, c), c) == s
    decreases |s|
  {
    var i := IndexOf(s, c);
    if i >= 0 {
      JoinOfSplit(s[i + 1..], c);
      JoinHead(s[..i], Split(s[i + 1..], c), c);
      assert s == s[..i] + [c] + s[i + 1..];
    }
  }

  lemma {:induction false} SplitIsFree(s: string, c: char)
    ensures AllFree(Split(s, c), c)
    decreases |s|
  {
    var i := IndexOf(s, c);
    if i >= 0 {
      SplitIsFree(s[i + 1..], c);
    }
  }

  /** Characters of a piece come from the text. */
  lemma {:induction false} PiecesAreFree(s: string, c: char, other: char)
    requires other !in s
    ensures AllFree(Split(s, c), other)
    decreases |s|
  {
    var i := IndexOf(s, c);
    if i >= 0 { PiecesAreFree(s[i + 1..], c, other); }
  }

  /** Joining brings in the separator only. */
  lemma {:induction false} JoinIsFree(parts: seq<string>, separator: char, c: char)
    requires AllFree(parts, c) && c != separator
    ensures c !in Join(parts, separator)
  {
    if |parts| > 1 { JoinIsFree(parts[1..], separator, c); }
  }

  lemma {:induction false} SplitOfJoin(parts: seq<string>, c: char)
    requires parts != [] && AllFree(parts, c)
    ensures Split(Join(parts, c), c) == parts
  {
    SplitHead(parts[0], c, Join(parts[1..], c));
    if |parts| > 1 {
      SplitOfJoin(parts[1..], c);
    }
  }

  /** Joining and splitting on one character is the identity for exactly the separator-free lists. */
  lemma SplitOfJoinIff(parts: seq<string>, c: char)
    ensures Split(Join(parts, c), c) == parts <==> parts != [] && AllFree(parts, c)
  {
    SplitIsFree(Join(parts, c), c);
    if parts != [] && AllFree(parts, c) {
      SplitOfJoin(parts, c);
    }
  }

  function LastSegment(s: string): string
  {
    var segments := Split(s, '/');
    segments[|segments| - 1]
  }

  /** The last piece is the text after the last separator. */
  lemma {:induction false} LastOfSplit(head: string, c: char, last: string)
    requires c !in last
    ensures var parts := Split(head + [c] + last, c); parts[|parts| - 1] == last
    decreases |head|
  {
    var i := IndexOf(head, c);
    if i < 0 {
      SplitHead(head, c, last);
      SplitHead(last, c, "");
    } else {
      var rest := head[i + 1..] + [c] + last;
      assert head + [c] + last == head[..i] + [c] + rest;
      SplitHead(head[..i], c, rest);
      LastOfSplit(head[i + 1..], c, last);
    }
  }

  /** The text after a slash is the last segment exactly when it holds no slash itself. */
  lemma LastSegmentIff(head: string, last: string)
    ensures LastSegment(head + "/" + last) == last <==> '/' !in last
  {
    SplitIsFree(head + "/" + last, '/');
    if '/' !in last { LastOfSplit(head, '/', last); }
  }
}
