/** Searching and splitting, as Go's strings package does it. A string is a sequence of bytes: a
    character stands for the byte of the same number. */
module Strings {

  predicate IsBytes(s: string) {
    forall i :: 0 <= i < |s| ==> s[i] as int < 256
  }

  predicate IsDigit(c: char) {
    '0' <= c <= '9'
  }

  predicate AllDigits(s: string) {
    forall i :: 0 <= i < |s| ==> IsDigit(s[i])
  }

  function LowerChar(c: char): char {
    if 'A' <= c <= 'Z' then (c as int + 32) as char else c
  }

  /** Where `c` first occurs in `s`, or the length of `s`. */
  function Find(s: string, c: char): (i: nat)
    ensures i <= |s| && c !in s[..i] && (i < |s| ==> s[i] == c)
  {
    if s == "" || s[0] == c then 0
    else
      var i := 1 + Find(s[1..], c);
      assert s[..i] == [s[0]] + s[1..][..i - 1];
      i
  }

  lemma {:induction false} FindFirst(a: string, c: char, b: string)
    requires c !in a
    ensures Find(a + [c] + b, c) == |a|
  {
    if a != "" {
      FindFirst(a[1..], c, b);
      assert (a + [c] + b)[1..] == a[1..] + [c] + b;
    }
  }

  lemma FindNone(a: string, c: char)
    requires c !in a
    ensures Find(a, c) == |a|
  {
  }

  /** Where `c` last occurs in `s`, or the length of `s`. */
  function FindLast(s: string, c: char): (i: nat)
    ensures i <= |s| && (if i < |s| then s[i] == c && c !in s[i + 1..] else c !in s)
  {
    if s == "" then 0
    else
      var i := FindLast(s[1..], c);
      assert s == [s[0]] + s[1..];
      if i < |s[1..]| then 1 + i else if s[0] == c then 0 else |s|
  }

  lemma {:induction false} FindLastOne(a: string, c: char, b: string)
    requires c !in b
    ensures FindLast(a + [c] + b, c) == |a|
  {
    if a == "" {
      assert (a + [c] + b)[1..] == b;
    } else {
      FindLastOne(a[1..], c, b);
      assert (a + [c] + b)[1..] == a[1..] + [c] + b;
    }
  }

  /** strings.Split by one character. */
  function Split(s: string, c: char): (parts: seq<string>)
    ensures parts != []
  {
    var i := Find(s, c);
    if i == |s| then [s] else [s[..i]] + Split(s[i + 1..], c)
  }

  function Join(parts: seq<string>, c: char): string {
    if parts == [] then ""
    else if |parts| == 1 then parts[0]
    else parts[0] + [c] + Join(parts[1..], c)
  }

  lemma {:induction false} SplitJoin(parts: seq<string>, c: char)
    requires parts != [] && forall i :: 0 <= i < |parts| ==> c !in parts[i]
    ensures Split(Join(parts, c), c) == parts
  {
    if |parts| == 1 {
      FindNone(parts[0], c);
    } else {
      var s := Join(parts, c);
      FindFirst(parts[0], c, Join(parts[1..], c));
      assert s[..|parts[0]|] == parts[0] && s[|parts[0]| + 1..] == Join(parts[1..], c);
      SplitJoin(parts[1..], c);
    }
  }

  lemma SplitFirst(part: string, c: char, rest: string)
    requires c !in part
    ensures Split(part + [c] + rest, c) == [part] + Split(rest, c)
  {
    var s := part + [c] + rest;
    FindFirst(part, c, rest);
    assert s[..|part|] == part && s[|part| + 1..] == rest;
  }

  lemma Regroup(a: string, b: string, c: string, d: string, e: string)
    ensures a + b + c + d + e == a + b + (c + d + e)
  {
  }

  lemma Associative<T>(a: seq<T>, b: seq<T>, c: seq<T>)
    ensures (a + b) + c == a + (b + c)
  {
  }

  lemma SplitLonger(part: string, c: char, rest: string, b: string)
    requires c !in part && Split(rest + [c] + b, c) == Split(rest, c) + Split(b, c)
    ensures Split(part + [c] + rest + [c] + b, c) == Split(part + [c] + rest, c) + Split(b, c)
  {
    Regroup(part, [c], rest, [c], b);
    SplitFirst(part, c, rest);
    SplitFirst(part, c, rest + [c] + b);
    Associative([part], Split(rest, c), Split(b, c));
  }

  lemma {:induction false} SplitAppend(a: string, c: char, b: string)
    ensures Split(a + [c] + b, c) == Split(a, c) + Split(b, c)
    decreases |a|
  {
    var i := Find(a, c);
    if i == |a| {
      FindNone(a, c);
      SplitFirst(a, c, b);
    } else {
      SplitAppend(a[i + 1..], c, b);
      SplitLonger(a[..i], c, a[i + 1..], b);
      Cut(a, i);
    }
  }

  lemma Cut(s: string, i: nat)
    requires i < |s|
    ensures s == s[..i] + [s[i]] + s[i + 1..]
  {
  }
}
