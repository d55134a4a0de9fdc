/**
 * The string operations of JavaScript that the bootstrap layer relies on:
 * `indexOf`, `split`, joining, replacing every occurrence, ASCII lower-casing.
 */
module Strings {

  /** `pat` occurs in `s` starting at index `i`. */
  predicate OccursAt(s: string, pat: string, i: int)
  {
    0 <= i && i + |pat| <= |s| && s[i..i + |pat|] == pat
  }

  /** `pat` is a substring of `s`. */
  ghost predicate Occurs(s: string, pat: string)
  {
    exists i :: OccursAt(s, pat, i)
  }

  lemma OccursInTail(s: string, pat: string, i: int)
    requires |s| > 0 && i >= 1
    ensures OccursAt(s, pat, i) <==> OccursAt(s[1..], pat, i - 1)
  {
    if i + |pat| <= |s| {
      assert s[1..][i - 1..i - 1 + |pat|] == s[i..i + |pat|];
    }
  }

  lemma OccursInPrefix(s: string, pat: string, n: int, i: int)
    requires 0 <= n <= |s|
    requires OccursAt(s[..n], pat, i)
    ensures OccursAt(s, pat, i)
  {
    assert s[..n][i..i + |pat|] == s[i..i + |pat|];
  }

  /** One step of the search: no match at 0, and what the search of `s[1..]` found. */
  lemma IndexOfStep(s: string, pat: string, r: int)
    requires |s| >= |pat| && s[..|pat|] != pat
    requires r == -1 <==> !Occurs(s[1..], pat)
    requires r != -1 ==> OccursAt(s[1..], pat, r)
    requires forall j :: 0 <= j < r ==> !OccursAt(s[1..], pat, j)
    ensures r == -1 <==> !Occurs(s, pat)
    ensures r != -1 ==> OccursAt(s, pat, r + 1)
    ensures forall j :: 0 <= j < r + 1 ==> !OccursAt(s, pat, j)
  {
    assert !OccursAt(s, pat, 0);
    forall j | 1 <= j
      ensures OccursAt(s, pat, j) <==> OccursAt(s[1..], pat, j - 1)
    {
      OccursInTail(s, pat, j);
    }
    if r != -1 {
      assert OccursAt(s, pat, r + 1);
    }
  }

  /** JavaScript's `s.indexOf(pat)`: the first index at which `pat` occurs, or -1. */
  function IndexOf(s: string, pat: string): (r: int)
    ensures -1 <= r <= |s|
    ensures r != -1 ==> r + |pat| <= |s|
    decreases |s|
  {
    if |s| < |pat| then
      -1
    else if s[..|pat|] == pat then
      0
    else
      var r := IndexOf(s[1..], pat);
      if r == -1 then -1 else r + 1
  }

  /** `IndexOf` finds the first occurrence, and answers -1 exactly when there is none. */
  lemma {:induction false} IndexOfFinds(s: string, pat: string)
    ensures IndexOf(s, pat) == -1 <==> !Occurs(s, pat)
    ensures IndexOf(s, pat) != -1 ==> OccursAt(s, pat, IndexOf(s, pat))
    ensures forall j :: 0 <= j < IndexOf(s, pat) ==> !OccursAt(s, pat, j)
    decreases |s|
  {
    if |s| < |pat| {
      forall j ensures !OccursAt(s, pat, j) {
      }
    } else if s[..|pat|] == pat {
      assert OccursAt(s, pat, 0);
    } else {
      IndexOfFinds(s[1..], pat);
      IndexOfStep(s, pat, IndexOf(s[1..], pat));
    }
  }

  /** `pat` first occurs in `s` at `n`. */
  predicate FirstAt(s: string, pat: string, n: int)
  {
    OccursAt(s, pat, n) && forall j :: 0 <= j < n ==> !OccursAt(s, pat, j)
  }

  /** The first occurrence is what `IndexOf` returns. */
  lemma FirstAtIndexOf(s: string, pat: string, n: int)
    requires FirstAt(s, pat, n)
    ensures IndexOf(s, pat) == n
  {
    IndexOfFinds(s, pat);
    var r := IndexOf(s, pat);
    assert r != -1;
    assert !(r < n) && !(n < r);
  }

  /** `s.split(sep)` for a non-empty separator: the pieces between the occurrences of `sep`. */
  function Split(s: string, sep: string): (parts: seq<string>)
    requires |sep| > 0
    ensures |parts| >= 1
    decreases |s|
  {
    var i := IndexOf(s, sep);
    if i == -1 then
      [s]
    else
      [s[..i]] + Split(s[i + |sep|..], sep)
  }

  /** `split` gives a single piece exactly when the separator does not occur, and that piece is the string. */
  lemma SplitNone(s: string, sep: string)
    requires |sep| > 0
    ensures |Split(s, sep)| == 1 <==> !Occurs(s, sep)
    ensures !Occurs(s, sep) ==> Split(s, sep) == [s]
  {
    IndexOfFinds(s, sep);
  }

  /** No piece of `split` contains the separator. */
  lemma {:induction false} SplitPieces(s: string, sep: string)
    requires |sep| > 0
    ensures forall i :: 0 <= i < |Split(s, sep)| ==> IndexOf(Split(s, sep)[i], sep) == -1
    decreases |s|
  {
    var i := IndexOf(s, sep);
    if i != -1 {
      var rest := s[i + |sep|..];
      SplitAt(s, sep, i);
      SplitPieces(rest, sep);
      assert IndexOf(s[..i], sep) == -1 by {
        IndexOfFinds(s, sep);
        IndexOfFinds(s[..i], sep);
        if Occurs(s[..i], sep) {
          var j :| OccursAt(s[..i], sep, j);
          OccursInPrefix(s, sep, i, j);
        }
      }
    }
  }

  /** `parts.join(sep)`. */
  function Join(parts: seq<string>, sep: string): string
  {
    if |parts| == 0 then ""
    else if |parts| == 1 then parts[0]
    else parts[0] + sep + Join(parts[1..], sep)
  }

  /** Splitting loses nothing: joining the pieces with the separator gives back the string. */
  lemma {:induction false} JoinSplit(s: string, sep: string)
    requires |sep| > 0
    ensures Join(Split(s, sep), sep) == s
    decreases |s|
  {
    var i := IndexOf(s, sep);
    if i != -1 {
      var rest := s[i + |sep|..];
      var tail := Split(rest, sep);
      SplitAt(s, sep, i);
      JoinSplit(rest, sep);
      JoinCons(s[..i], tail, sep);
      IndexOfFinds(s, sep);
      assert s[i..i + |sep|] == sep;
      SliceAround(s, i, |sep|);
    }
  }

  /** `split` cuts at the first occurrence of the separator. */
  lemma {:induction false} SplitAt(s: string, sep: string, i: int)
    requires |sep| > 0 && i == IndexOf(s, sep) && i != -1
    ensures Split(s, sep) == [s[..i]] + Split(s[i + |sep|..], sep)
  {
  }

  lemma SliceAround(s: string, i: int, n: int)
    requires 0 <= i <= i + n <= |s|
    ensures s == s[..i] + s[i..i + n] + s[i + n..]
  {
  }

  lemma JoinCons(p: string, tail: seq<string>, sep: string)
    requires |tail| >= 1
    ensures Join([p] + tail, sep) == p + sep + Join(tail, sep)
  {
    assert ([p] + tail)[1..] == tail;
  }

  /** A one-character pattern occurs exactly where that character stands. */
  lemma OccursChar(s: string, c: char, j: int)
    ensures OccursAt(s, [c], j) <==> 0 <= j < |s| && s[j] == c
  {
    if 0 <= j < |s| {
      assert s[j..j + 1] == [s[j]];
    }
  }

  lemma NoOccursChar(s: string, c: char)
    requires c !in s
    ensures !Occurs(s, [c])
  {
    forall j ensures !OccursAt(s, [c], j) {
      OccursChar(s, c, j);
    }
  }

  /** For a one-character separator, `split` inverts `join` of pieces free of that character. */
  lemma {:induction false} SplitJoin(parts: seq<string>, c: char)
    requires |parts| >= 1
    requires forall i :: 0 <= i < |parts| ==> c !in parts[i]
    ensures Split(Join(parts, [c]), [c]) == parts
    decreases |parts|
  {
    var s := Join(parts, [c]);
    var p := parts[0];
    if |parts| == 1 {
      NoOccursChar(s, c);
      IndexOfFinds(s, [c]);
    } else {
      var rest := Join(parts[1..], [c]);
      assert s == p + [c] + rest;
      forall j | 0 <= j < |p| ensures !OccursAt(s, [c], j) {
        OccursChar(s, c, j);
        assert s[j] == p[j];
      }
      OccursChar(s, c, |p|);
      FirstAtIndexOf(s, [c], |p|);
      assert s[..|p|] == p;
      assert s[|p| + 1..] == rest;
      SplitJoin(parts[1..], c);
    }
  }

  /**
   * Replace every occurrence of `pat` (left to right, not overlapping) by `rep`.
   * `s` cut at every occurrence of `pat`, the same pieces glued with `rep`.
   */
  function ReplaceAll(s: string, pat: string, rep: string): (r: string)
    requires |pat| > 0
    ensures exists parts :: (forall i :: 0 <= i < |parts| ==> !Occurs(parts[i], pat))
              && Join(parts, pat) == s && Join(parts, rep) == r
    ensures !Occurs(s, pat) ==> r == s
  {
    var parts := Split(s, pat);
    JoinSplit(s, pat);
    SplitPieces(s, pat);
    IndexOfFinds(s, pat);
    forall i | 0 <= i < |parts| ensures !Occurs(parts[i], pat) {
      IndexOfFinds(parts[i], pat);
    }
    Join(parts, rep)
  }

  /**
   * Where the `{name}` placeholder that `s` starts with ends: the index of its `}`, or 0
   * when `s` does not start with one. A placeholder is a `{`, one or more characters
   * other than `}`, and the `}` after them (the pattern `/\{([^\}]+)\}/`).
   */
  function PlaceholderEnd(s: string): (e: nat)
    ensures e == 0 || (2 <= e < |s| && s[0] == '{' && s[e] == '}')
  {
    if |s| > 0 && s[0] == '{' then
      var j := IndexOf(s[1..], "}");
      IndexOfFinds(s[1..], "}");
      if j >= 1 then
        assert s[1..][j..j + 1] == "}";
        j + 1
      else 0
    else 0
  }

  /**
   * dojo's `lang.replace(s, {key: value})`: from left to right, each `{name}` placeholder
   * becomes `value` when `name` is `key` and the text "undefined" otherwise; every other
   * character is copied.
   */
  function LangReplace(s: string, key: string, value: string): string
    decreases |s|
  {
    if s == [] then []
    else
      var e := PlaceholderEnd(s);
      if e == 0 then [s[0]] + LangReplace(s[1..], key, value)
      else (if s[1..e] == key then value else "undefined") + LangReplace(s[e + 1..], key, value)
  }

  /** Text without a `{` is copied unchanged. */
  lemma {:induction false} LangReplaceCopies(a: string, b: string, key: string, value: string)
    requires '{' !in a
    ensures LangReplace(a + b, key, value) == a + LangReplace(b, key, value)
    decreases |a|
  {
    if a != [] {
      var s := a + b;
      assert s[0] == a[0] && s[1..] == a[1..] + b;
      assert PlaceholderEnd(s) == 0;
      assert LangReplace(s, key, value) == [s[0]] + LangReplace(s[1..], key, value);
      LangReplaceCopies(a[1..], b, key, value);
      assert a == [a[0]] + a[1..];
    } else {
      assert a + b == b;
    }
  }

  /** The placeholder `{name}` at the start of a text ends at the `}` after `name`. */
  lemma PlaceholderEndAt(name: string, b: string)
    requires |name| > 0 && '}' !in name
    ensures PlaceholderEnd("{" + name + "}" + b) == |name| + 1
  {
    var t := ("{" + name + "}" + b)[1..];
    assert t == name + "}" + b;
    forall j | 0 <= j < |name| ensures !OccursAt(t, "}", j) {
      OccursChar(t, '}', j);
      assert t[j] == name[j];
    }
    OccursChar(t, '}', |name|);
    FirstAtIndexOf(t, "}", |name|);
  }

  /** A placeholder becomes the value when it names the key, and "undefined" when it names anything else. */
  lemma LangReplacePlaceholder(name: string, b: string, key: string, value: string)
    requires |name| > 0 && '}' !in name
    ensures LangReplace("{" + name + "}" + b, key, value) ==
            (if name == key then value else "undefined") + LangReplace(b, key, value)
  {
    var s := "{" + name + "}" + b;
    PlaceholderEndAt(name, b);
    assert s[1..|name| + 1] == name;
    assert s[|name| + 2..] == b;
  }

  /** Every `{` of `s` starts an occurrence of `pat`. */
  predicate BracesStart(s: string, pat: string)
  {
    forall i :: 0 <= i < |s| && s[i] == '{' ==> OccursAt(s, pat, i)
  }

  lemma OccursShift(s: string, pat: string, off: int, i: int)
    requires 0 <= off <= |s| && 0 <= i
    ensures OccursAt(s[off..], pat, i) <==> OccursAt(s, pat, off + i)
  {
    if off + i + |pat| <= |s| {
      assert s[off..][i..i + |pat|] == s[off + i..off + i + |pat|];
    }
  }

  /** `ReplaceAll` replaces the first occurrence and goes on after it. */
  lemma ReplaceAllAt(s: string, pat: string, rep: string, i: int)
    requires |pat| > 0 && i == IndexOf(s, pat) && i != -1
    ensures ReplaceAll(s, pat, rep) == s[..i] + rep + ReplaceAll(s[i + |pat|..], pat, rep)
  {
    SplitAt(s, pat, i);
    JoinCons(s[..i], Split(s[i + |pat|..], pat), rep);
  }

  /** Text without a `{`, then the placeholder `{key}`: the text is copied and the value follows. */
  lemma LangReplaceFirst(a: string, key: string, value: string, b: string)
    requires '{' !in a && |key| > 0 && '}' !in key
    ensures LangReplace(a + ("{" + key + "}") + b, key, value) == a + value + LangReplace(b, key, value)
  {
    var pat := "{" + key + "}";
    assert a + pat + b == a + (pat + b);
    LangReplaceCopies(a, pat + b, key, value);
    LangReplacePlaceholder(key, b, key, value);
  }

  /** Before the first occurrence of `pat` there is no `{`, when every `{` starts `pat`. */
  lemma NoBraceBefore(s: string, pat: string, i: int)
    requires BracesStart(s, pat) && 0 <= i <= |s|
    requires forall j :: 0 <= j < i ==> !OccursAt(s, pat, j)
    ensures '{' !in s[..i]
  {
    forall j | 0 <= j < i ensures s[..i][j] != '{' {
      assert !OccursAt(s, pat, j);
    }
  }

  /** What follows an occurrence still has every `{` starting `pat`. */
  lemma BracesStartAfter(s: string, pat: string, off: int)
    requires BracesStart(s, pat) && 0 <= off <= |s|
    ensures BracesStart(s[off..], pat)
  {
    var b := s[off..];
    forall j | 0 <= j < |b| && b[j] == '{' ensures OccursAt(b, pat, j) {
      assert s[off + j] == '{';
      OccursShift(s, pat, off, j);
    }
  }

  /**
   * When every `{` of `s` starts the placeholder `{key}`, `lang.replace` replaces each
   * occurrence of `{key}` by the value, as `ReplaceAll` does.
   */
  lemma {:induction false} LangReplaceIsReplaceAll(s: string, key: string, value: string)
    requires |key| > 0 && '}' !in key
    requires BracesStart(s, "{" + key + "}")
    ensures LangReplace(s, key, value) == ReplaceAll(s, "{" + key + "}", value)
    decreases |s|
  {
    var pat := "{" + key + "}";
    var i := IndexOf(s, pat);
    IndexOfFinds(s, pat);
    if i == -1 {
      NoBraceBefore(s, pat, |s|);
      assert s[..|s|] == s;
      LangReplaceCopies(s, [], key, value);
      assert s + [] == s;
    } else {
      var a, b := s[..i], s[i + |pat|..];
      NoBraceBefore(s, pat, i);
      BracesStartAfter(s, pat, i + |pat|);
      SliceAround(s, i, |pat|);
      assert s == a + pat + b;
      LangReplaceFirst(a, key, value, b);
      LangReplaceIsReplaceAll(b, key, value);
      ReplaceAllAt(s, pat, value, i);
    }
  }

  /** ASCII lower-casing of one character. */
  function LowerChar(c: char): char
  {
    if 'A' <= c <= 'Z' then (c as int + 32) as char else c
  }

  /**
   * `s.toLowerCase()` restricted to ASCII letters. For comparing with an ASCII
   * word such as "true" this agrees with the full Unicode mapping, whose only
   * non-ASCII characters that lower-case into ASCII are the Kelvin sign and
   * dotted capital I, which map to "k" and "i" plus a combining dot.
   */
  function ToLowerAscii(s: string): (r: string)
    ensures |r| == |s|
    ensures forall i :: 0 <= i < |s| ==> r[i] == LowerChar(s[i])
  {
    seq(|s|, i requires 0 <= i < |s| => LowerChar(s[i]))
  }

  /** Lower-casing a lower-cased string changes nothing. */
  lemma ToLowerAsciiIdempotent(s: string)
    ensures ToLowerAscii(ToLowerAscii(s)) == ToLowerAscii(s)
  {
    var once := ToLowerAscii(s);
    assert forall i :: 0 <= i < |once| ==> LowerChar(once[i]) == once[i];
  }

  /** A word of lower-case ASCII letters. */
  predicate LowerWord(w: string)
  {
    forall i :: 0 <= i < |w| ==> 'a' <= w[i] <= 'z'
  }

  /**
   * A string lower-cases to a lower-case word exactly when it spells that word with
   * each letter in either case: "true", "TRUE" and "tRuE" all compare equal to "true".
   */
  lemma ToLowerAsciiIsWord(s: string, w: string)
    requires LowerWord(w)
    ensures ToLowerAscii(s) == w <==>
              |s| == |w| && forall i :: 0 <= i < |s| ==> s[i] == w[i] || s[i] as int == w[i] as int - 32
  {
    if |s| == |w| {
      forall i | 0 <= i < |s|
        ensures LowerChar(s[i]) == w[i] <==> s[i] == w[i] || s[i] as int == w[i] as int - 32
      {
      }
      if ToLowerAscii(s) != w {
        var i :| 0 <= i < |s| && ToLowerAscii(s)[i] != w[i];
        assert LowerChar(s[i]) != w[i];
      }
    }
  }
}
