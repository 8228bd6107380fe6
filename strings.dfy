/**
 * The two string operations the word-fetch flow relies on: lower-casing
 * (`str::to_lowercase`, restricted to ASCII) and splitting a URI into its
 * '/'-separated pieces (scheme, authority and path alike), the last of
 * which are the path segments a router reads.
 */
module Strings {

  /** Lower-case ASCII letters. */
  predicate IsLowerIdent(s: string) {
    |s| > 0 && forall i :: 0 <= i < |s| ==> 'a' <= s[i] <= 'z'
  }

  function LowerChar(c: char): char {
    if 'A' <= c <= 'Z' then (c as int + 32) as char else c
  }

  /** `str::to_lowercase` on ASCII text. */
  function Lower(s: string): string {
    seq(|s|, i requires 0 <= i < |s| => LowerChar(s[i]))
  }

  /** Lower-casing leaves a lower-case identifier as it is, and such an identifier has no '/'. */
  lemma LowerFixesIdent(s: string)
    requires IsLowerIdent(s)
    ensures Lower(s) == s
    ensures '/' !in s
  {
    assert forall i :: 0 <= i < |s| ==> Lower(s)[i] == s[i];
  }

  /** Lower-casing neither adds nor removes a '/'. */
  lemma LowerKeepsSlash(s: string)
    ensures '/' in Lower(s) <==> '/' in s
  {
    if '/' in s {
      var i :| 0 <= i < |s| && s[i] == '/';
      assert Lower(s)[i] == '/';
    }
    if '/' in Lower(s) {
      var i :| 0 <= i < |s| && Lower(s)[i] == '/';
      assert s[i] == '/';
    }
  }

  /** The '/'-separated pieces of `s`; there is always at least one. */
  function Segments(s: string): (r: seq<string>)
    ensures |r| >= 1
  {
    if s == [] then [""]
    else if s[0] == '/' then [""] + Segments(s[1..])
    else
      var rest := Segments(s[1..]);
      [[s[0]] + rest[0]] + rest[1..]
  }

  /** A string without '/' is a single piece. */
  lemma {:induction false} SegmentsOfSlashFree(s: string)
    requires '/' !in s
    ensures Segments(s) == [s]
  {
    if s != [] {
      assert '/' !in s[1..];
      SegmentsOfSlashFree(s[1..]);
      assert [s[0]] + s[1..] == s;
    }
  }

  /** Joining two strings with '/' concatenates their lists of pieces. */
  lemma {:induction false} SegmentsOfJoin(a: string, b: string)
    ensures Segments(a + "/" + b) == Segments(a) + Segments(b)
  {
    if a == [] {
      assert a + "/" + b == "/" + b;
      assert ("/" + b)[1..] == b;
    } else {
      var s := a + "/" + b;
      assert s[0] == a[0];
      assert s[1..] == a[1..] + "/" + b;
      SegmentsOfJoin(a[1..], b);
    }
  }

  /** Appending two '/'-free strings to `base` adds exactly those two pieces. */
  lemma SegmentsOfPath(base: string, a: string, b: string)
    requires '/' !in a && '/' !in b
    ensures Segments(base + "/" + a + "/" + b) == Segments(base) + [a, b]
  {
    SegmentsOfSlashFree(a);
    SegmentsOfSlashFree(b);
    SegmentsOfJoin(a, b);
    SegmentsOfJoin(base, a + "/" + b);
    assert base + "/" + a + "/" + b == base + "/" + (a + "/" + b);
  }
}
