/** The Python string primitives the markdown converter relies on:
    `str.strip`, `startswith`, `endswith`, the `in` substring test,
    `sep.join`, `split('\n')` and single-character `replace`. */
module Text {

  /** Python's `str.isspace` for one character: exactly the characters that
      `str.strip()` without arguments removes from both ends. */
  predicate IsSpace(c: char) {
    || c == ' ' || '\t' <= c <= '\r' || '\U{1C}' <= c <= '\U{1F}'
    || c == '\U{85}' || c == '\U{A0}' || c == '\U{1680}' || '\U{2000}' <= c <= '\U{200A}'
    || c == '\U{2028}' || c == '\U{2029}' || c == '\U{202F}' || c == '\U{205F}' || c == '\U{3000}'
  }

  /** A string made only of whitespace (the empty string included). */
  predicate AllSpace(s: string) {
    forall k :: 0 <= k < |s| ==> IsSpace(s[k])
  }

  /** A string that `strip` leaves alone. */
  predicate IsTrimmed(s: string) {
    s == [] || (!IsSpace(s[0]) && !IsSpace(s[|s| - 1]))
  }

  /** The first index at or after i whose character is not whitespace,
      or |s| if there is none. */
  function SkipSpaces(s: string, i: nat): (j: nat)
    requires i <= |s|
    ensures i <= j <= |s|
    decreases |s| - i
  {
    if i < |s| && IsSpace(s[i]) then SkipSpaces(s, i + 1) else i
  }

  /** SkipSpaces passes over whitespace only and stops at the first
      character that is not whitespace. */
  lemma {:induction false} SkipSpacesSpec(s: string, i: nat)
    requires i <= |s|
    ensures forall k :: i <= k < SkipSpaces(s, i) ==> IsSpace(s[k])
    ensures SkipSpaces(s, i) < |s| ==> !IsSpace(s[SkipSpaces(s, i)])
    decreases |s| - i
  {
    if i < |s| && IsSpace(s[i]) {
      SkipSpacesSpec(s, i + 1);
    }
  }

  /** The end of s[lo..hi] once trailing whitespace is dropped. */
  function DropTrailingSpaces(s: string, lo: nat, hi: nat): (e: nat)
    requires lo <= hi <= |s|
    ensures lo <= e <= hi
    decreases hi - lo
  {
    if hi > lo && IsSpace(s[hi - 1]) then DropTrailingSpaces(s, lo, hi - 1) else hi
  }

  /** DropTrailingSpaces drops whitespace only and stops after the last
      character that is not whitespace. */
  lemma {:induction false} DropTrailingSpacesSpec(s: string, lo: nat, hi: nat)
    requires lo <= hi <= |s|
    ensures forall k :: DropTrailingSpaces(s, lo, hi) <= k < hi ==> IsSpace(s[k])
    ensures DropTrailingSpaces(s, lo, hi) > lo ==> !IsSpace(s[DropTrailingSpaces(s, lo, hi) - 1])
    decreases hi - lo
  {
    if hi > lo && IsSpace(s[hi - 1]) {
      DropTrailingSpacesSpec(s, lo, hi - 1);
    }
  }

  /** `s.strip()`: s without its leading and trailing whitespace. */
  function Trim(s: string): string {
    var a := SkipSpaces(s, 0);
    s[a..DropTrailingSpaces(s, a, |s|)]
  }

  /** What `strip` promises: no whitespace at either end, an empty result
      exactly for an all-whitespace string, and a trimmed string comes back
      unchanged. */
  lemma TrimSpec(s: string)
    ensures IsTrimmed(Trim(s))
    ensures Trim(s) == [] <==> AllSpace(s)
    ensures IsTrimmed(s) ==> Trim(s) == s
  {
    var a := SkipSpaces(s, 0);
    SkipSpacesSpec(s, 0);
    DropTrailingSpacesSpec(s, a, |s|);
  }

  /** `s.startswith(p)` */
  predicate StartsWith(s: string, p: string) {
    |p| <= |s| && s[..|p|] == p
  }

  /** `s.endswith(p)` */
  predicate EndsWith(s: string, p: string) {
    |p| <= |s| && s[|s| - |p|..] == p
  }

  /** A string that starts with q starts with every prefix of q. */
  lemma PrefixOfPrefix(s: string, p: string, q: string)
    requires StartsWith(q, p) && StartsWith(s, q)
    ensures StartsWith(s, p)
  {
    assert s[..|p|] == s[..|q|][..|p|];
  }

  /** Two prefixes that differ at position j cannot both start s. */
  lemma PrefixesClash(s: string, p: string, q: string, j: nat)
    requires j < |p| && j < |q| && p[j] != q[j]
    ensures !(StartsWith(s, p) && StartsWith(s, q))
  {
  }

  /** Python's `sub in s` on strings: sub occurs at some position of s. */
  predicate Contains(s: string, sub: string)
    decreases |s|
  {
    StartsWith(s, sub) || (|s| > 0 && Contains(s[1..], sub))
  }

  /** sub occurs in s at offset k. */
  predicate OccursAt(s: string, sub: string, k: int) {
    0 <= k <= |s| - |sub| && s[k..k + |sub|] == sub
  }

  /** The recursive substring test agrees with "sub occurs at some offset". */
  lemma {:induction false} ContainsAt(s: string, sub: string)
    ensures Contains(s, sub) <==> exists k :: OccursAt(s, sub, k)
    decreases |s|
  {
    if StartsWith(s, sub) {
      assert OccursAt(s, sub, 0);
    } else if |s| == 0 {
      assert |sub| > 0;
    } else {
      ContainsAt(s[1..], sub);
      if exists k :: OccursAt(s, sub, k) {
        var k :| OccursAt(s, sub, k);
        assert k != 0;
        assert s[1..][k - 1..k - 1 + |sub|] == s[k..k + |sub|];
        assert OccursAt(s[1..], sub, k - 1);
      }
      if Contains(s[1..], sub) {
        var k :| OccursAt(s[1..], sub, k);
        assert s[1..][k..k + |sub|] == s[k + 1..k + 1 + |sub|];
        assert OccursAt(s, sub, k + 1);
      }
    }
  }

  /** `sep.join(parts)` */
  function Join(parts: seq<string>, sep: string): string
    decreases |parts|
  {
    if |parts| == 0 then ""
    else if |parts| == 1 then parts[0]
    else parts[0] + sep + Join(parts[1..], sep)
  }

  /** Joining non-empty, trimmed pieces with a single space gives a non-empty,
      trimmed string (the paragraph payload). */
  lemma {:induction false} JoinTrimmed(parts: seq<string>)
    requires |parts| > 0
    requires forall k :: 0 <= k < |parts| ==> parts[k] != [] && IsTrimmed(parts[k])
    ensures Join(parts, " ") != [] && IsTrimmed(Join(parts, " "))
    decreases |parts|
  {
    if |parts| > 1 {
      var rest := Join(parts[1..], " ");
      JoinTrimmed(parts[1..]);
      var r := parts[0] + " " + rest;
      assert r[0] == parts[0][0];
      assert r[|r| - 1] == rest[|rest| - 1];
    }
  }

  /** `s.split('\n')`: always at least one piece, no piece holds a newline,
      and every character of a piece comes from s. */
  function SplitLines(s: string): (r: seq<string>)
    ensures |r| >= 1
    ensures forall k :: 0 <= k < |r| ==> '\n' !in r[k]
    ensures forall k :: 0 <= k < |r| ==> forall c :: c in r[k] ==> c in s
    decreases |s|
  {
    if s == [] then [""]
    else
      var rest := SplitLines(s[1..]);
      if s[0] == '\n' then [""] + rest
      else [[s[0]] + rest[0]] + rest[1..]
  }

  /** Joining the pieces of a split with '\n' gives back the original text. */
  lemma {:induction false} JoinSplitLines(s: string)
    ensures Join(SplitLines(s), "\n") == s
    decreases |s|
  {
    if s != [] {
      var rest := SplitLines(s[1..]);
      JoinSplitLines(s[1..]);
      if s[0] == '\n' {
        assert SplitLines(s) == [""] + rest;
        assert ([""] + rest)[1..] == rest;
      } else {
        var r := [[s[0]] + rest[0]] + rest[1..];
        assert SplitLines(s) == r;
        if |rest| > 1 {
          assert r[1..] == rest[1..];
          assert Join(rest, "\n") == rest[0] + "\n" + Join(rest[1..], "\n");
        }
      }
    }
  }

  /** Splitting a newline-free prefix p glued onto t only lengthens t's first piece. */
  lemma {:induction false} SplitLinesPrefix(p: string, t: string)
    requires '\n' !in p
    ensures SplitLines(p + t) == [p + SplitLines(t)[0]] + SplitLines(t)[1..]
    decreases |p|
  {
    if p != [] {
      assert (p + t)[1..] == p[1..] + t;
      assert (p + t)[0] == p[0] && p[0] in p;
      SplitLinesPrefix(p[1..], t);
      var rt := SplitLines(t);
      var rest := SplitLines(p[1..] + t);
      assert rest == [p[1..] + rt[0]] + rt[1..];
      assert rest[0] == p[1..] + rt[0] && rest[1..] == rt[1..];
      assert SplitLines(p + t) == [[p[0]] + rest[0]] + rest[1..];
      assert [p[0]] + p[1..] == p;
      assert [p[0]] + (p[1..] + rt[0]) == p + rt[0];
    } else {
      assert p + t == t && p + SplitLines(t)[0] == SplitLines(t)[0];
    }
  }

  /** Splitting newline-free pieces joined with '\n' gives the pieces back. */
  lemma {:induction false} SplitLinesJoin(parts: seq<string>)
    requires |parts| >= 1
    requires forall k :: 0 <= k < |parts| ==> '\n' !in parts[k]
    ensures SplitLines(Join(parts, "\n")) == parts
    decreases |parts|
  {
    if |parts| == 1 {
      SplitLinesPrefix(parts[0], "");
      assert parts[0] + "" == parts[0];
    } else {
      var rest := Join(parts[1..], "\n");
      SplitLinesJoin(parts[1..]);
      assert parts[0] + "\n" + rest == parts[0] + ("\n" + rest);
      SplitLinesPrefix(parts[0], "\n" + rest);
      assert ("\n" + rest)[1..] == rest;
      assert SplitLines("\n" + rest) == [""] + parts[1..];
      assert parts[0] + "" == parts[0];
      assert [parts[0]] + parts[1..] == parts;
    }
  }

  /** `s.replace(c, rep)` for a one-character pattern c: every occurrence of
      c is replaced by rep, everything else is kept in order. */
  function ReplaceChar(s: string, c: char, rep: string): (r: string)
    ensures c !in rep ==> c !in r
    ensures forall x :: x in r ==> x in s || x in rep
    decreases |s|
  {
    if s == [] then ""
    else (if s[0] == c then rep else [s[0]]) + ReplaceChar(s[1..], c, rep)
  }

  /** Replacing in a concatenation replaces in each part. */
  lemma {:induction false} ReplaceCharConcat(a: string, b: string, c: char, rep: string)
    ensures ReplaceChar(a + b, c, rep) == ReplaceChar(a, c, rep) + ReplaceChar(b, c, rep)
    decreases |a|
  {
    if a != [] {
      assert (a + b)[1..] == a[1..] + b;
      ReplaceCharConcat(a[1..], b, c, rep);
    } else {
      assert a + b == b;
    }
  }
}
