/** Joining and splitting text at a separator, and reading a line of input. */
module Text {
  function Join(parts: seq<string>, sep: char): string {
    if parts == [] then ""
    else if |parts| == 1 then parts[0]
    else parts[0] + [sep] + Join(parts[1..], sep)
  }

  /** The first occurrence of a character, or the length of the text. */
  function Find(s: string, c: char): (i: nat)
    ensures i <= |s|
    ensures i < |s| ==> s[i] == c
    ensures c !in s[..i]
  {
    if s == "" || s[0] == c then 0
    else
      var k := Find(s[1..], c);
      assert s[..1 + k] == [s[0]] + s[1..][..k];
      1 + k
  }

  /** All pieces between separators, empty ones included. */
  function Split(s: string, sep: char): (r: seq<string>)
    ensures r != []
    decreases |s|
  {
    var k := Find(s, sep);
    if k == |s| then [s] else [s[..k]] + Split(s[k + 1..], sep)
  }

  function NonEmpty(parts: seq<string>): seq<string> {
    if parts == [] then []
    else (if parts[0] == "" then [] else [parts[0]]) + NonEmpty(parts[1..])
  }

  /** What repeated `strtok_r` calls return: the non-empty pieces. */
  function Tokens(s: string, sep: char): seq<string> {
    NonEmpty(Split(s, sep))
  }

  ghost predicate Separable(parts: seq<string>, sep: char) {
    forall p :: p in parts ==> p != "" && sep !in p
  }

  // ----- Laws

  lemma {:induction false} FindAfter(a: string, c: char, rest: string)
    requires c !in a
    ensures Find(a + [c] + rest, c) == |a|
    ensures Find(a, c) == |a|
  {
    var s := a + [c] + rest;
    if a != "" {
      assert s[0] == a[0] && a[0] in a && s[1..] == a[1..] + [c] + rest;
      FindAfter(a[1..], c, rest);
    }
  }

  lemma SplitAfter(a: string, sep: char, rest: string)
    requires sep !in a
    ensures Split(a + [sep] + rest, sep) == [a] + Split(rest, sep)
    ensures Split(a, sep) == [a]
  {
    var s := a + [sep] + rest;
    FindAfter(a, sep, rest);
    assert s[..|a|] == a && s[|a| + 1..] == rest;
  }

  /** Splitting undoes joining. */
  lemma {:induction false} SplitJoin(parts: seq<string>, sep: char)
    requires parts != [] && forall p :: p in parts ==> sep !in p
    ensures Split(Join(parts, sep), sep) == parts
  {
    assert parts[0] in parts;
    if |parts| == 1 {
      SplitAfter(parts[0], sep, "");
    } else {
      SplitAfter(parts[0], sep, Join(parts[1..], sep));
      SplitJoin(parts[1..], sep);
    }
  }

  lemma {:induction false} NonEmptyAll(parts: seq<string>)
    requires forall p :: p in parts ==> p != ""
    ensures NonEmpty(parts) == parts
  {
    if parts != [] {
      assert parts[0] in parts && forall p :: p in parts[1..] ==> p in parts;
      NonEmptyAll(parts[1..]);
    }
  }

  lemma TokensJoin(parts: seq<string>, sep: char)
    requires Separable(parts, sep)
    ensures Tokens(Join(parts, sep), sep) == parts
  {
    if parts != [] {
      SplitJoin(parts, sep);
      NonEmptyAll(parts);
    } else {
      SplitAfter("", sep, "");
      assert NonEmpty([""]) == [] + NonEmpty([""][1..]);
    }
  }

  lemma {:induction false} JoinSnoc(parts: seq<string>, last: string, sep: char)
    requires parts != []
    ensures Join(parts + [last], sep) == Join(parts, sep) + [sep] + last
  {
    if |parts| > 1 {
      assert (parts + [last])[1..] == parts[1..] + [last];
      JoinSnoc(parts[1..], last, sep);
    } else {
      assert (parts + [last])[1..] == [last];
    }
  }

  /** A longer join is strictly longer. */
  lemma {:induction false} JoinLonger(parts: seq<string>, k: nat, sep: char)
    requires 0 < k <= |parts|
    ensures |Join(parts[..k], sep)| <= |Join(parts, sep)|
    ensures k < |parts| ==> |Join(parts[..k], sep)| < |Join(parts, sep)|
    decreases |parts|
  {
    if k < |parts| {
      var front := parts[..|parts| - 1];
      assert parts == front + [parts[|parts| - 1]];
      JoinSnoc(front, parts[|parts| - 1], sep);
      assert front[..k] == parts[..k];
      JoinLonger(front, k, sep);
    } else {
      assert parts[..k] == parts;
    }
  }

  /** Splitting a text that itself has a separator somewhere. */
  lemma {:induction false} SplitConcat(a: string, sep: char, b: string)
    ensures Split(a + [sep] + b, sep) == Split(a, sep) + Split(b, sep)
    decreases |a|
  {
    var k := Find(a, sep);
    if k == |a| {
      assert a[..k] == a;
      SplitAfter(a, sep, b);
    } else {
      var rest := a[k + 1..];
      assert a == a[..k] + [sep] + rest;
      assert a + [sep] + b == a[..k] + [sep] + (rest + [sep] + b);
      SplitAfter(a[..k], sep, rest + [sep] + b);
      SplitConcat(rest, sep, b);
    }
  }

  // ----- Buffers

  /** Writes `s` into a buffer from `off` on, leaving room for a terminator. */
  method Append(buf: array<char>, off: nat, s: string)
    requires off + |s| < buf.Length
    modifies buf
    ensures buf[..off + |s|] == old(buf[..off]) + s
  {
    var j := 0;
    while j < |s|
      invariant j <= |s|
      invariant buf[..off + j] == old(buf[..off]) + s[..j]
    {
      buf[off + j] := s[j];
      j := j + 1;
    }
    assert s[..|s|] == s;
  }

  /** `snprintf(buf + off, size - off, "%s", s)`: cuts what does not fit, but returns the full length. */
  method Snprintf(buf: array<char>, off: nat, s: string) returns (n: nat)
    requires off < buf.Length
    modifies buf
    ensures n == |s|
    ensures var k := if off + |s| < buf.Length then |s| else buf.Length - 1 - off;
            buf[..off + k] == old(buf[..off]) + s[..k] && buf[off + k] == '\0'
  {
    var k := if off + |s| < buf.Length then |s| else buf.Length - 1 - off;
    Append(buf, off, s[..k]);
    ghost var written := buf[..off + k];
    buf[off + k] := '\0';
    assert buf[..off + k] == written;
    n := |s|;
  }
}
