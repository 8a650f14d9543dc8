/** The string operations the controllers use: splitting on a separator, searching for one, and byte order. */
module Strings {

  /** The pieces of `s` between separators; a string without separators is one piece. */
  function Split(s: string, sep: char): (parts: seq<string>)
    ensures |parts| >= 1
  {
    if s == "" then [""]
    else
      var rest := Split(s[1..], sep);
      if s[0] == sep then [""] + rest else [[s[0]] + rest[0]] + rest[1..]
  }

  function Join(parts: seq<string>, sep: char): string
    requires |parts| >= 1
  {
    if |parts| == 1 then parts[0] else parts[0] + [sep] + Join(parts[1..], sep)
  }

  lemma {:induction false} JoinSplit(s: string, sep: char)
    ensures Join(Split(s, sep), sep) == s
  {
    if s != "" {
      JoinSplit(s[1..], sep);
      var rest := Split(s[1..], sep);
      var parts := Split(s, sep);
      if s[0] == sep {
        assert parts[1..] == rest;
      } else if |rest| == 1 {
        assert parts == [[s[0]] + rest[0]];
      } else {
        assert parts[1..] == rest[1..];
      }
      assert s == [s[0]] + s[1..];
    }
  }

  lemma {:induction false} SplitWhole(a: string, sep: char)
    requires sep !in a
    ensures Split(a, sep) == [a]
  {
    if a != "" {
      assert forall i :: 0 <= i < |a[1..]| ==> a[1..][i] == a[i + 1];
      SplitWhole(a[1..], sep);
      assert a == [a[0]] + a[1..];
    }
  }

  lemma {:induction false} SplitHead(a: string, sep: char, b: string)
    requires sep !in a
    ensures Split(a + [sep] + b, sep) == [a] + Split(b, sep)
  {
    var s := a + [sep] + b;
    if a == "" {
      assert s[1..] == b;
    } else {
      assert forall i :: 0 <= i < |a[1..]| ==> a[1..][i] == a[i + 1];
      SplitHead(a[1..], sep, b);
      assert s[1..] == a[1..] + [sep] + b;
      assert a == [a[0]] + a[1..];
    }
  }

  lemma {:induction false} PiecesHaveNoSeparator(s: string, sep: char, i: nat)
    requires i < |Split(s, sep)|
    ensures sep !in Split(s, sep)[i]
    decreases |s|
  {
    if s != "" {
      var rest := Split(s[1..], sep);
      if s[0] == sep {
        if i > 0 { PiecesHaveNoSeparator(s[1..], sep, i - 1); }
      } else {
        PiecesHaveNoSeparator(s[1..], sep, i);
      }
    }
  }

  /** A character of a piece is a character of the whole string. */
  lemma {:induction false} PieceWithin(s: string, sep: char, i: nat, ch: char)
    requires i < |Split(s, sep)|
    ensures ch in Split(s, sep)[i] ==> ch in s
    decreases |s|
  {
    if s != "" {
      if s[0] != sep || i > 0 {
        PieceWithin(s[1..], sep, if s[0] == sep then i - 1 else i, ch);
      }
      assert s == [s[0]] + s[1..];
    }
  }

  /** Position of the first `ch`, or -1. */
  function Index(s: string, ch: char): (i: int)
    ensures -1 <= i < |s|
    ensures i == -1 <==> ch !in s
    ensures i >= 0 ==> s[i] == ch && ch !in s[..i]
  {
    if s == "" then -1
    else if s[0] == ch then 0
    else
      var i := Index(s[1..], ch);
      assert s == [s[0]] + s[1..];
      if i == -1 then -1 else
        assert s[..i + 1] == [s[0]] + s[1..][..i];
        i + 1
  }

  /** Position of the last `ch`, or -1. */
  function LastIndex(s: string, ch: char): (i: int)
    ensures -1 <= i < |s|
    ensures i == -1 <==> ch !in s
    ensures i >= 0 ==> s[i] == ch && ch !in s[i + 1..]
  {
    if s == "" then -1
    else if s[|s| - 1] == ch then |s| - 1
    else
      var i := LastIndex(s[..|s| - 1], ch);
      assert s == s[..|s| - 1] + [s[|s| - 1]];
      if i == -1 then -1 else
        assert s[i + 1..] == s[..|s| - 1][i + 1..] + [s[|s| - 1]];
        i
  }

  lemma IndexIs(s: string, ch: char, n: nat)
    requires n < |s| && s[n] == ch && ch !in s[..n]
    ensures Index(s, ch) == n
  {
    var i := Index(s, ch);
    assert ch in s;
    assert forall k :: 0 <= k < n ==> s[..n][k] == s[k];
    assert forall k :: 0 <= k < i ==> s[..i][k] == s[k];
  }

  lemma LastIndexIs(s: string, ch: char, n: nat)
    requires n < |s| && s[n] == ch && ch !in s[n + 1..]
    ensures LastIndex(s, ch) == n
  {
    var i := LastIndex(s, ch);
    assert ch in s;
    assert forall k :: n < k < |s| ==> s[k] == s[n + 1..][k - n - 1];
    assert forall k :: i < k < |s| ==> s[k] == s[i + 1..][k - i - 1];
  }

  /** Lexicographic order. */
  predicate Less(a: string, b: string) {
    b != "" && (a == "" || a[0] < b[0] || (a[0] == b[0] && Less(a[1..], b[1..])))
  }

  /** The strings agree up to some place, where the first one ends or has the smaller character. */
  ghost predicate SplitsAt(a: string, b: string, k: nat) {
    k <= |a| && k < |b| && a[..k] == b[..k] && (k == |a| || a[k] < b[k])
  }

  lemma {:induction false} LessSplits(a: string, b: string) returns (k: nat)
    requires Less(a, b)
    ensures SplitsAt(a, b, k)
  {
    if a == "" || a[0] < b[0] {
      k := 0;
    } else {
      var rest := LessSplits(a[1..], b[1..]);
      k := rest + 1;
      assert a[..k] == [a[0]] + a[1..][..rest] && b[..k] == [b[0]] + b[1..][..rest];
    }
  }

  lemma {:induction false} SplitsIsLess(a: string, b: string, k: nat)
    requires SplitsAt(a, b, k)
    ensures Less(a, b)
  {
    if k > 0 {
      assert a[0] == a[..k][0] == b[..k][0] == b[0];
      assert a[1..][..k - 1] == a[..k][1..] == b[..k][1..] == b[1..][..k - 1];
      SplitsIsLess(a[1..], b[1..], k - 1);
    }
  }

  lemma {:induction false} LessTotal(a: string, b: string)
    ensures Less(a, b) || a == b || Less(b, a)
    ensures !(Less(a, b) && Less(b, a))
    ensures a == b ==> !Less(a, b)
  {
    if a != "" && b != "" && a[0] == b[0] {
      LessTotal(a[1..], b[1..]);
      assert a == [a[0]] + a[1..] && b == [b[0]] + b[1..];
    }
  }

  lemma {:induction false} LessTransitive(a: string, b: string, c: string)
    requires Less(a, b) && Less(b, c)
    ensures Less(a, c)
  {
    if a != "" && a[0] == b[0] && b[0] == c[0] {
      LessTransitive(a[1..], b[1..], c[1..]);
    }
  }
}
