/**
 * The JavaScript string operations the client relies on: `startsWith`,
 * `split` with a string separator, and `join`. A JavaScript string is a
 * sequence of UTF-16 code units, while a Dafny `char` is a Unicode scalar
 * value; the two agree on the ASCII separators used here, and lone
 * surrogates and characters outside the Basic Multilingual Plane are not
 * modelled.
 */
module JsString {

  /** `s.startsWith(prefix)` */
  predicate StartsWith(s: string, prefix: string)
  {
    |prefix| <= |s| && s[..|prefix|] == prefix
  }

  /** `sep` occurs in `s` starting at index `i`. */
  predicate MatchAt(s: string, sep: string, i: int)
  {
    0 <= i && i + |sep| <= |s| && s[i..i + |sep|] == sep
  }

  /** `sep` does not occur anywhere in `s`. */
  predicate Free(s: string, sep: string)
  {
    forall i :: 0 <= i <= |s| ==> !MatchAt(s, sep, i)
  }

  /**
   * A separator whose first character does not occur again inside it, such
   * as `"; "` or `"="`: two occurrences of it can never overlap.
   */
  predicate Unambiguous(sep: string)
  {
    |sep| > 0 && forall j :: 0 < j < |sep| ==> sep[j] != sep[0]
  }

  /** `parts.join(sep)` */
  function Join(parts: seq<string>, sep: string): string
  {
    if |parts| == 0 then ""
    else if |parts| == 1 then parts[0]
    else parts[0] + sep + Join(parts[1..], sep)
  }

  /**
   * `s.split(sep)` for a non-empty separator: scanning left to right, every
   * occurrence of `sep` ends one piece; the text after the last occurrence
   * is the last piece, so the result is never empty (`"".split(sep)` is
   * `[""]`).
   */
  function Split(s: string, sep: string): (parts: seq<string>)
    requires |sep| > 0
    ensures |parts| >= 1
    ensures Join(parts, sep) == s
    ensures forall k :: 0 <= k < |parts| ==> Free(parts[k], sep)
    decreases |s|
  {
    if |s| < |sep| then
      [s]
    else if s[..|sep|] == sep then
      assert s == sep + s[|sep|..];
      [""] + Split(s[|sep|..], sep)
    else
      var rest := Split(s[1..], sep);
      JoinHead(rest, sep);
      ConsFree(s, rest[0], sep);
      assert ([[s[0]] + rest[0]] + rest[1..])[1..] == rest[1..];
      [[s[0]] + rest[0]] + rest[1..]
  }

  /** The joined text begins with the first part. */
  lemma JoinHead(parts: seq<string>, sep: string)
    requires |parts| >= 1
    ensures StartsWith(Join(parts, sep), parts[0])
  {
    if |parts| > 1 {
      assert Join(parts, sep) == parts[0] + (sep + Join(parts[1..], sep));
    }
  }

  /**
   * Prepending `s[0]` to a separator-free `p` keeps it separator-free when
   * `[s[0]] + p` is a prefix of `s` and `s` does not begin with `sep`.
   */
  lemma ConsFree(s: string, p: string, sep: string)
    requires |sep| > 0 && |s| >= 1
    requires StartsWith(s[1..], p)
    requires Free(p, sep)
    requires !MatchAt(s, sep, 0)
    ensures Free([s[0]] + p, sep)
  {
    var q := [s[0]] + p;
    forall i | 0 <= i <= |q|
      ensures !MatchAt(q, sep, i)
    {
      if i > 0 && MatchAt(q, sep, i) {
        assert q[i..i + |sep|] == p[i - 1..i - 1 + |sep|];
        assert MatchAt(p, sep, i - 1);
      }
    }
  }

  lemma FreeTail(s: string, sep: string)
    requires |s| >= 1 && Free(s, sep)
    ensures Free(s[1..], sep)
  {
    forall i | 0 <= i <= |s[1..]|
      ensures !MatchAt(s[1..], sep, i)
    {
      if MatchAt(s[1..], sep, i) {
        assert s[1..][i..i + |sep|] == s[i + 1..i + 1 + |sep|];
        assert MatchAt(s, sep, i + 1);
      }
    }
  }

  /** A one-character separator is absent exactly when that character is. */
  lemma FreeOfChar(s: string, c: char)
    ensures Free(s, [c]) <==> c !in s
  {
    if c in s {
      var i :| 0 <= i < |s| && s[i] == c;
      assert s[i..i + 1] == [c];
      assert MatchAt(s, [c], i);
    } else {
      forall i | 0 <= i < |s|
        ensures !MatchAt(s, [c], i)
      {
        assert s[i..i + 1][0] == s[i];
      }
    }
  }

  /**
   * The first piece of a split is the text up to the first occurrence of
   * the separator, or all of it.
   */
  lemma FirstPiece(s: string, sep: string)
    requires |sep| > 0
    ensures Free(Split(s, sep)[0], sep)
    ensures StartsWith(s, Split(s, sep)[0])
    ensures |Split(s, sep)| > 1 ==> MatchAt(s, sep, |Split(s, sep)[0]|)
  {
    var parts := Split(s, sep);
    JoinHead(parts, sep);
    if |parts| > 1 {
      assert s == parts[0] + sep + Join(parts[1..], sep);
      assert s[|parts[0]|..|parts[0]| + |sep|] == sep;
    }
  }

  /** Text without the separator splits into itself alone. */
  lemma {:induction false} SplitOfFree(s: string, sep: string)
    requires |sep| > 0 && Free(s, sep)
    ensures Split(s, sep) == [s]
    decreases |s|
  {
    if |s| >= |sep| {
      assert !MatchAt(s, sep, 0);
      FreeTail(s, sep);
      SplitOfFree(s[1..], sep);
      assert [s[0]] + s[1..] == s;
    }
  }

  /**
   * A separator-free piece followed by the separator is split off as the
   * first piece, whatever follows.
   */
  lemma {:induction false} SplitAfterPiece(e: string, sep: string, rest: string)
    requires Unambiguous(sep) && Free(e, sep)
    ensures Split(e + sep + rest, sep) == [e] + Split(rest, sep)
    decreases |e|
  {
    var s := e + sep + rest;
    if |e| == 0 {
      assert s == sep + rest;
      assert s[..|sep|] == sep && s[|sep|..] == rest;
    } else {
      assert s[..|sep|] != sep by {
        if |e| >= |sep| {
          assert s[..|sep|] == e[..|sep|];
          assert !MatchAt(e, sep, 0);
        } else {
          assert s[|e|] == sep[0];
        }
      }
      FreeTail(e, sep);
      SplitAfterPiece(e[1..], sep, rest);
      assert s[1..] == e[1..] + sep + rest;
      assert [s[0]] + e[1..] == e;
    }
  }

  /** Splitting undoes joining, for separator-free parts. */
  lemma {:induction false} SplitJoin(parts: seq<string>, sep: string)
    requires Unambiguous(sep) && |parts| >= 1
    requires forall k :: 0 <= k < |parts| ==> Free(parts[k], sep)
    ensures Split(Join(parts, sep), sep) == parts
  {
    if |parts| == 1 {
      SplitOfFree(parts[0], sep);
    } else {
      SplitAfterPiece(parts[0], sep, Join(parts[1..], sep));
      SplitJoin(parts[1..], sep);
      assert [parts[0]] + parts[1..] == parts;
    }
  }
}
