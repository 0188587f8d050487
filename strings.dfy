/**
 * The pieces of Go's `strings` package that the help subsystem relies on:
 * `Split` and `Join` with a one-character separator, `TrimSpace`, and the
 * case mappings `ToLower` / `ToUpper` (restricted to ASCII letters).
 */
module Strings {

  /** Go's `unicode.IsSpace`: the ASCII space characters, NEL, NBSP and the
      remaining characters with the Unicode White_Space property. */
  predicate IsSpace(c: char) {
    var n := c as int;
    n == 0x09 || n == 0x0A || n == 0x0B || n == 0x0C || n == 0x0D || n == 0x20
    || n == 0x85 || n == 0xA0 || n == 0x1680 || (0x2000 <= n <= 0x200A)
    || n == 0x2028 || n == 0x2029 || n == 0x202F || n == 0x205F || n == 0x3000
  }

  /** Number of occurrences of `c` in `s`. */
  function Count(s: string, c: char): nat {
    if s == [] then 0 else (if s[0] == c then 1 else 0) + Count(s[1..], c)
  }

  /** `strings.Split(s, sep)` for a one-character separator: the maximal
      pieces of `s` between separators. Splitting "" gives [""]. */
  function Split(s: string, c: char): (r: seq<string>)
    ensures |r| == Count(s, c) + 1
    ensures forall i :: 0 <= i < |r| ==> c !in r[i]
  {
    if s == [] then [""]
    else
      var rest := Split(s[1..], c);
      if s[0] == c then [""] + rest
      else [[s[0]] + rest[0]] + rest[1..]
  }

  /** `strings.Join(parts, sep)` for a one-character separator. */
  function Join(parts: seq<string>, c: char): string {
    if |parts| == 0 then ""
    else if |parts| == 1 then parts[0]
    else parts[0] + [c] + Join(parts[1..], c)
  }

  /** Joining the pieces of a split gives back the original string. */
  lemma {:induction false} JoinSplit(s: string, c: char)
    ensures Join(Split(s, c), c) == s
  {
    if s != [] {
      var rest := Split(s[1..], c);
      JoinSplit(s[1..], c);
      if s[0] == c {
        assert Split(s, c) == [""] + rest;
        assert s == [c] + s[1..];
      } else {
        var r := Split(s, c);
        assert r == [[s[0]] + rest[0]] + rest[1..];
        if |rest| == 1 {
          assert Join(rest, c) == rest[0];
        } else {
          assert Join(rest, c) == rest[0] + [c] + Join(rest[1..], c);
          assert r[1..] == rest[1..];
        }
        assert s == [s[0]] + s[1..];
      }
    }
  }

  /** Splitting at a separator splits each side independently. */
  lemma {:induction false} SplitAppend(x: string, y: string, c: char)
    ensures Split(x + [c] + y, c) == Split(x, c) + Split(y, c)
  {
    if x == [] {
      assert x + [c] + y == [c] + y;
      assert ([c] + y)[1..] == y;
    } else {
      assert (x + [c] + y)[0] == x[0];
      assert (x + [c] + y)[1..] == x[1..] + [c] + y;
      SplitAppend(x[1..], y, c);
    }
  }

  /** A string without the separator is one piece. */
  lemma {:induction false} SplitNoSeparator(s: string, c: char)
    requires c !in s
    ensures Split(s, c) == [s]
  {
    if s != [] {
      SplitNoSeparator(s[1..], c);
      assert [s[0]] + s[1..] == s;
    }
  }

  /** Splitting a join of separator-free pieces gives back the pieces. */
  lemma {:induction false} SplitJoin(parts: seq<string>, c: char)
    requires |parts| > 0
    requires forall i :: 0 <= i < |parts| ==> c !in parts[i]
    ensures Split(Join(parts, c), c) == parts
  {
    if |parts| == 1 {
      SplitNoSeparator(parts[0], c);
    } else {
      SplitJoin(parts[1..], c);
      SplitAppend(parts[0], Join(parts[1..], c), c);
      SplitNoSeparator(parts[0], c);
      assert [parts[0]] + parts[1..] == parts;
    }
  }

  /** Leading white space removed: the result is the suffix of `s` that
      starts at its first non-space character. */
  function TrimLeft(s: string): (r: string)
    ensures |r| <= |s| && r == s[|s| - |r|..]
    ensures forall i :: 0 <= i < |s| - |r| ==> IsSpace(s[i])
    ensures r != [] ==> !IsSpace(r[0])
  {
    if s != [] && IsSpace(s[0]) then TrimLeft(s[1..]) else s
  }

  /** Trailing white space removed: the result is the prefix of `s` that
      ends at its last non-space character. */
  function TrimRight(s: string): (r: string)
    ensures |r| <= |s| && r == s[..|r|]
    ensures forall i :: |r| <= i < |s| ==> IsSpace(s[i])
    ensures r != [] ==> !IsSpace(r[|r| - 1])
  {
    if s != [] && IsSpace(s[|s| - 1]) then TrimRight(s[..|s| - 1]) else s
  }

  /** `strings.TrimSpace`. */
  function TrimSpace(s: string): string {
    TrimRight(TrimLeft(s))
  }

  /** TrimSpace removes exactly the white space at both ends: the result is
      the slice `s[lo..hi]`, everything outside it is white space, and the
      result neither starts nor ends with white space. It is empty exactly
      when `s` is all white space. */
  lemma TrimSpaceSlice(s: string) returns (lo: nat, hi: nat)
    ensures lo <= hi <= |s| && TrimSpace(s) == s[lo..hi]
    ensures forall i :: 0 <= i < lo ==> IsSpace(s[i])
    ensures forall i :: hi <= i < |s| ==> IsSpace(s[i])
    ensures TrimSpace(s) != [] ==> !IsSpace(s[lo]) && !IsSpace(s[hi - 1])
    ensures TrimSpace(s) == [] <==> forall i :: 0 <= i < |s| ==> IsSpace(s[i])
  {
    var l := TrimLeft(s);
    var r := TrimRight(l);
    lo := |s| - |l|;
    hi := lo + |r|;
    assert l == s[lo..];
    assert r == l[..|r|];
    if r == [] {
      forall i | 0 <= i < |s| ensures IsSpace(s[i]) {
        if i >= lo { assert s[i] == l[i - lo]; }
      }
    }
  }

  /** A string with no white space at either end is its own trim. */
  lemma TrimSpaceTrimmed(s: string)
    requires s != [] ==> !IsSpace(s[0]) && !IsSpace(s[|s| - 1])
    ensures TrimSpace(s) == s
  {
  }

  /** One space on each side of a word is trimmed away. */
  lemma TrimPadded(w: string)
    requires w != [] && !IsSpace(w[0]) && !IsSpace(w[|w| - 1])
    ensures TrimSpace([' '] + w + [' ']) == w
  {
    var p := [' '] + w + [' '];
    assert p[1..] == w + [' '];
    assert TrimLeft(p) == w + [' '];
    assert (w + [' '])[..|w|] == w;
    assert TrimRight(w + [' ']) == w;
  }

  function LowerChar(c: char): char {
    if 'A' <= c <= 'Z' then (c as int + 32) as char else c
  }

  function UpperChar(c: char): char {
    if 'a' <= c <= 'z' then (c as int - 32) as char else c
  }

  /** `strings.ToLower`, on ASCII letters. */
  function ToLower(s: string): (r: string)
    ensures |r| == |s|
    ensures forall i :: 0 <= i < |s| ==> r[i] == LowerChar(s[i])
  {
    if s == [] then [] else [LowerChar(s[0])] + ToLower(s[1..])
  }

  /** `strings.ToUpper`, on ASCII letters. */
  function ToUpper(s: string): (r: string)
    ensures |r| == |s|
    ensures forall i :: 0 <= i < |s| ==> r[i] == UpperChar(s[i])
  {
    if s == [] then [] else [UpperChar(s[0])] + ToUpper(s[1..])
  }

  /** No upper-case ASCII letter in `s`. */
  predicate IsLower(s: string) {
    forall i :: 0 <= i < |s| ==> !('A' <= s[i] <= 'Z')
  }

  /** Lower-casing yields a lower-case string, does nothing to one, and
      undoes upper-casing of one: the upper-cased label of a normalised
      query names the same topic. */
  lemma CaseRoundTrip(s: string)
    ensures IsLower(ToLower(s))
    ensures IsLower(s) ==> ToLower(s) == s
    ensures IsLower(s) ==> ToLower(ToUpper(s)) == s
  {
  }
}
