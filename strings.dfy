/**
 * The string operations the bridge builds names and fields from:
 * Python's `str.split(sep)` and `sep.join(parts)` for one-character
 * separators, ASCII `str.lower()`, and the "flat name" of a device or
 * sensor (`"_".join(name.lower().split(" "))`, func.py:45-46).
 */
module Strings {

  /** Number of occurrences of `c` in `s`. */
  function Occurrences(s: string, c: char): nat
  {
    if s == [] then 0 else (if s[0] == c then 1 else 0) + Occurrences(s[1..], c)
  }

  /**
   * Python's `s.split(sep)` for a one-character separator: the maximal
   * separator-free pieces between separators, empty ones included, so
   * there is always one piece more than there are separators.
   */
  function Split(s: string, sep: char): (parts: seq<string>)
    ensures |parts| == Occurrences(s, sep) + 1
    ensures forall k :: 0 <= k < |parts| ==> sep !in parts[k]
  {
    if s == [] then [""]
    else
      var rest := Split(s[1..], sep);
      if s[0] == sep then [""] + rest
      else [[s[0]] + rest[0]] + rest[1..]
  }

  /** Python's `sep.join(parts)`. */
  function Join(sep: string, parts: seq<string>): string
  {
    if parts == [] then ""
    else if |parts| == 1 then parts[0]
    else parts[0] + sep + Join(sep, parts[1..])
  }

  /** Every occurrence of `a` in `s` becomes `b`. */
  function Replace(s: string, a: char, b: char): (r: string)
    ensures |r| == |s|
    ensures forall i :: 0 <= i < |s| ==> r[i] == if s[i] == a then b else s[i]
  {
    if s == [] then [] else [if s[0] == a then b else s[0]] + Replace(s[1..], a, b)
  }

  /** `str.lower()` on one character; only ASCII letters have a case here. */
  function LowerChar(c: char): char
  {
    if 'A' <= c <= 'Z' then (c as int - 'A' as int + 'a' as int) as char else c
  }

  /** `str.lower()` on a whole string, character by character. */
  function Lower(s: string): (r: string)
    ensures |r| == |s|
    ensures forall i :: 0 <= i < |s| ==> r[i] == LowerChar(s[i])
  {
    if s == [] then [] else [LowerChar(s[0])] + Lower(s[1..])
  }

  /**
   * Joining the pieces of a split with a one-character separator `c`
   * replaces every separator by `c`.
   */
  lemma {:induction false} JoinSplitIsReplace(s: string, sep: char, c: char)
    ensures Join([c], Split(s, sep)) == Replace(s, sep, c)
  {
    if s != [] {
      var rest := Split(s[1..], sep);
      JoinSplitIsReplace(s[1..], sep, c);
      if s[0] != sep && |rest| > 1 {
        assert Join([c], Split(s, sep)) == [s[0]] + (rest[0] + [c] + Join([c], rest[1..]));
      }
    }
  }

  /** `sep.join(s.split(sep)) == s`: splitting loses nothing. */
  lemma JoinSplit(s: string, sep: char)
    ensures Join([sep], Split(s, sep)) == s
  {
    JoinSplitIsReplace(s, sep, sep);
    assert Replace(s, sep, sep) == s;
  }

  /** A piece without separators splits into itself in front of the rest. */
  lemma {:induction false} SplitCons(p: string, sep: char, rest: string)
    requires sep !in p
    ensures Split(p + [sep] + rest, sep) == [p] + Split(rest, sep)
  {
    if p != [] {
      var q := p + [sep] + rest;
      SplitCons(p[1..], sep, rest);
      assert q[0] == p[0] && q[1..] == p[1..] + [sep] + rest;
      assert [p[0]] + p[1..] == p;
    } else {
      assert p + [sep] + rest == [sep] + rest;
    }
  }

  /** A separator-free string splits into just itself. */
  lemma {:induction false} SplitNoSeparator(p: string, sep: char)
    requires sep !in p
    ensures Split(p, sep) == [p]
  {
    if p != [] {
      SplitNoSeparator(p[1..], sep);
      assert [p[0]] + p[1..] == p;
    }
  }

  /**
   * `sep.join(parts).split(sep) == parts` when there is at least one part
   * and no part holds the separator: the pipe-delimited reading format
   * gives back the fields it was built from.
   */
  lemma {:induction false} SplitJoin(parts: seq<string>, sep: char)
    requires |parts| > 0
    requires forall k :: 0 <= k < |parts| ==> sep !in parts[k]
    ensures Split(Join([sep], parts), sep) == parts
  {
    if |parts| == 1 {
      SplitNoSeparator(parts[0], sep);
    } else {
      SplitJoin(parts[1..], sep);
      SplitCons(parts[0], sep, Join([sep], parts[1..]));
    }
  }

  /**
   * The flattened identifier of a device or sensor name: lower-cased,
   * each single space replaced by `_`. The result has the length of the
   * name, holds no space, and agrees with the name character by character.
   */
  function FlatName(name: string): (r: string)
    ensures |r| == |name|
    ensures ' ' !in r
    ensures forall i :: 0 <= i < |name| ==>
      r[i] == if name[i] == ' ' then '_' else LowerChar(name[i])
  {
    JoinSplitIsReplace(Lower(name), ' ', '_');
    Join("_", Split(Lower(name), ' '))
  }

  /** Flattening a flat name changes nothing. */
  lemma FlatNameIdempotent(name: string)
    ensures FlatName(FlatName(name)) == FlatName(name)
  {
    var f := FlatName(name);
    assert forall i :: 0 <= i < |f| ==> FlatName(f)[i] == f[i];
  }
}
