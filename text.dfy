/**
 * The few JavaScript string operations the core relies on: `startsWith`, `endsWith`,
 * `split` on a one-character separator (and its inverse, `join`), the global one-character
 * `replace` and lodash's `trim` with a given character.
 */
module Text {

  predicate StartsWith(s: string, prefix: string) {
    |prefix| <= |s| && s[..|prefix|] == prefix
  }

  predicate EndsWith(s: string, suffix: string) {
    |suffix| <= |s| && s[|s| - |suffix|..] == suffix
  }

  /** The index of the first occurrence of `c` in `s` (`s.indexOf(c)` when it is found). */
  function FirstIndex(s: string, c: char): (i: nat)
    requires c in s
    ensures i < |s| && s[i] == c && c !in s[..i]
  {
    if s[0] == c then 0
    else
      var j := FirstIndex(s[1..], c);
      assert s[..j + 1] == [s[0]] + s[1..][..j];
      j + 1
  }

  lemma FirstIndexAfterPrefix(a: string, c: char, b: string)
    requires c !in a
    ensures c in a + [c] + b && FirstIndex(a + [c] + b, c) == |a|
  {
    var s := a + [c] + b;
    assert s[|a|] == c;
    assert s[..|a|] == a;
  }

  /** `s.split(sep)`: the pieces between the separators; there is always at least one. */
  function Split(s: string, sep: char): (parts: seq<string>)
    ensures |parts| >= 1
    ensures forall k :: 0 <= k < |parts| ==> sep !in parts[k]
    decreases |s|
  {
    if sep !in s then [s]
    else
      var i := FirstIndex(s, sep);
      [s[..i]] + Split(s[i + 1..], sep)
  }

  /** `parts.join(sep)`. */
  function Join(parts: seq<string>, sep: char): string
  {
    if |parts| == 0 then ""
    else if |parts| == 1 then parts[0]
    else parts[0] + [sep] + Join(parts[1..], sep)
  }

  /** Joining a list of two or more pieces puts the separator after the first. */
  lemma JoinCons(first: string, rest: seq<string>, sep: char)
    requires |rest| >= 1
    ensures Join([first] + rest, sep) == first + [sep] + Join(rest, sep)
  {
    assert ([first] + rest)[1..] == rest;
  }

  /** Joining the pieces of a split gives back the string. */
  lemma {:induction false} JoinSplit(s: string, sep: char)
    ensures Join(Split(s, sep), sep) == s
    decreases |s|
  {
    if sep in s {
      var i := FirstIndex(s, sep);
      var tail := s[i + 1..];
      var rest := Split(tail, sep);
      assert Split(s, sep) == [s[..i]] + rest;
      JoinSplit(tail, sep);
      JoinCons(s[..i], rest, sep);
      assert s == s[..i] + [sep] + tail;
    }
  }

  /** Splitting a join of separator-free pieces gives back the pieces. */
  lemma {:induction false} SplitJoin(parts: seq<string>, sep: char)
    requires |parts| >= 1
    requires forall k :: 0 <= k < |parts| ==> sep !in parts[k]
    ensures Split(Join(parts, sep), sep) == parts
  {
    if |parts| > 1 {
      var tail := Join(parts[1..], sep);
      var s := parts[0] + [sep] + tail;
      FirstIndexAfterPrefix(parts[0], sep, tail);
      assert s[..|parts[0]|] == parts[0];
      assert s[|parts[0]| + 1..] == tail;
      SplitJoin(parts[1..], sep);
    }
  }

  /** `s.replace(/from/g, to)` for single characters. */
  function ReplaceChar(s: string, from: char, to: char): (r: string)
    ensures |r| == |s|
    ensures forall k :: 0 <= k < |s| ==> r[k] == (if s[k] == from then to else s[k])
  {
    if s == [] then []
    else [if s[0] == from then to else s[0]] + ReplaceChar(s[1..], from, to)
  }

  /** `s.replace(/c/g, '')`: every `c` removed, the other characters kept in order. */
  function RemoveChar(s: string, c: char): (r: string)
    ensures c !in r
    ensures forall x :: x != c ==> (x in r <==> x in s)
    ensures c !in s ==> r == s
  {
    if s == [] then []
    else if s[0] == c then RemoveChar(s[1..], c)
    else [s[0]] + RemoveChar(s[1..], c)
  }

  /** Removing a character from a concatenation removes it from each part. */
  lemma {:induction false} RemoveCharAppend(a: string, b: string, c: char)
    ensures RemoveChar(a + b, c) == RemoveChar(a, c) + RemoveChar(b, c)
  {
    if a != [] {
      assert (a + b)[1..] == a[1..] + b;
      RemoveCharAppend(a[1..], b, c);
    } else {
      assert a + b == b;
    }
  }

  /** lodash `charsStartIndex`: the index of the first character of `s` that is not `c`. */
  function TrimStartIndex(s: string, c: char, from: nat): (i: nat)
    requires from <= |s|
    requires forall k :: 0 <= k < from ==> s[k] == c
    ensures from <= i <= |s|
    ensures forall k :: 0 <= k < i ==> s[k] == c
    ensures i == |s| || s[i] != c
    decreases |s| - from
  {
    if from < |s| && s[from] == c then TrimStartIndex(s, c, from + 1) else from
  }

  /** lodash `charsEndIndex` plus one: the index just past the last character of `s` that is not `c`. */
  function TrimEndIndex(s: string, c: char, to: nat): (j: nat)
    requires to <= |s|
    requires forall k :: to <= k < |s| ==> s[k] == c
    ensures j <= to
    ensures forall k :: j <= k < |s| ==> s[k] == c
    ensures j == 0 || s[j - 1] != c
  {
    if to > 0 && s[to - 1] == c then TrimEndIndex(s, c, to - 1) else to
  }

  /** lodash `trim(s, c)`: the slice between the two indices, empty when they cross. */
  function Trim(s: string, c: char): (r: string)
    ensures r == [] || (r[0] != c && r[|r| - 1] != c)
  {
    var start := TrimStartIndex(s, c, 0);
    var end := TrimEndIndex(s, c, |s|);
    if start < end then s[start..end] else []
  }

  /** Every character of `s` is `c`. */
  predicate AllOf(s: string, c: char)
  {
    forall k :: 0 <= k < |s| ==> s[k] == c
  }

  /**
   * Trimming removes the runs of `c` at both ends and nothing else: padding a string that
   * neither starts nor ends with `c` by runs of `c` and trimming gives the string back.
   */
  lemma TrimPadded(a: string, r: string, b: string, c: char)
    requires AllOf(a, c) && AllOf(b, c)
    requires r == [] || (r[0] != c && r[|r| - 1] != c)
    ensures Trim(a + r + b, c) == r
  {
    var s := a + r + b;
    var start := TrimStartIndex(s, c, 0);
    var end := TrimEndIndex(s, c, |s|);
    if r == [] {
      assert AllOf(s, c) by {
        forall k | 0 <= k < |s| ensures s[k] == c {
          if k < |a| { assert s[k] == a[k]; } else { assert s[k] == b[k - |a|]; }
        }
      }
      assert start == |s|;
    } else {
      assert forall k :: 0 <= k < |a| ==> s[k] == a[k];
      assert forall k :: 0 <= k < |b| ==> s[|a| + |r| + k] == b[k];
      assert s[|a|] == r[0];
      assert s[|a| + |r| - 1] == r[|r| - 1];
      assert start == |a|;
      assert end == |a| + |r|;
      assert s[start..end] == r;
    }
  }
}
