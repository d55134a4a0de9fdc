/**
 * Query-string handling of Boilerplate.js: `_urlToObject` (a scan with
 * `URL_RE`), `_stripTags` (removal of `TAGS_RE` matches), `_getUrlParamValues`
 * (allow-list filtering and boolean coercion).
 */
module QueryString {
  import opened JsValues
  import opened Strings

  //--------------------------------------------------------------------------
  //  _urlToObject
  //--------------------------------------------------------------------------

  /** `(window.location.search || "?").substr(1)`: the search string without its leading `?`. */
  function QueryOf(search: string): string
  {
    if search == "" then "" else search[1..]
  }

  const KeyStops: set<char> := {'&', '='}
  const ValueStops: set<char> := {'&'}

  /** Length of the longest prefix of `s` holding none of `stops` (a greedy `[^...]*`). */
  function Span(s: string, stops: set<char>): (n: nat)
    ensures n <= |s|
    decreases |s|
  {
    if s == [] || s[0] in stops then 0 else 1 + Span(s[1..], stops)
  }

  /** The greedy run holds no stop character, and a stop character or the end follows it. */
  lemma {:induction false} SpanStops(s: string, stops: set<char>)
    ensures forall i :: 0 <= i < Span(s, stops) ==> s[i] !in stops
    ensures Span(s, stops) == |s| || s[Span(s, stops)] in stops
    decreases |s|
  {
    if s != [] && s[0] !in stops {
      SpanStops(s[1..], stops);
      forall i | 1 <= i < Span(s, stops) ensures s[i] !in stops {
        assert s[i] == s[1..][i - 1];
      }
    }
  }

  /** The greedy run is the one ending at the first stop character. */
  lemma {:induction false} SpanIs(s: string, stops: set<char>, n: nat)
    requires n <= |s|
    requires forall i :: 0 <= i < n ==> s[i] !in stops
    requires n == |s| || s[n] in stops
    ensures Span(s, stops) == n
    decreases n
  {
    if n > 0 {
      assert s[0] !in stops;
      forall i | 0 <= i < n - 1 ensures s[1..][i] !in stops {
        assert s[1..][i] == s[i + 1];
      }
      SpanIs(s[1..], stops, n - 1);
    }
  }

  /** A key `URL_RE` can capture: one or more characters other than `&` and `=`. */
  predicate IsKey(k: string)
  {
    |k| > 0 && forall i :: 0 <= i < |k| ==> k[i] !in KeyStops
  }

  /** A value `URL_RE` can capture: no `&`. */
  predicate IsValue(v: string)
  {
    forall i :: 0 <= i < |v| ==> v[i] !in ValueStops
  }

  /**
   * The (key, value) captures of the global scan of `q` with
   * `/([^&=]+)=?([^&]*)(?:&+|$)/g`. At a position holding `&` or `=` no match
   * can start and the scan moves on by one character. Anywhere else a match
   * always succeeds: the key is the longest run free of `&` and `=`; if an `=`
   * follows, the value is the longest run after it free of `&`, otherwise the
   * value is empty. The trailing `&+` is skipped like any other `&`.
   */
  function Matches(q: string): (r: seq<(string, string)>)
    ensures forall i :: 0 <= i < |r| ==> IsKey(r[i].0) && IsValue(r[i].1)
    decreases |q|
  {
    if q == [] then []
    else if q[0] in KeyStops then Matches(q[1..])
    else
      var c := Capture(q);
      [(c.0, c.1)] + Matches(c.2)
  }

  /** The match of `URL_RE` at a position not holding `&` or `=`: key, value, and the text after it. */
  function Capture(q: string): (c: (string, string, string))
    requires q != [] && q[0] !in KeyStops
    ensures IsKey(c.0) && IsValue(c.1) && |c.2| < |q|
  {
    var k := Span(q, KeyStops);
    SpanStops(q, KeyStops);
    assert k > 0;
    assert IsKey(q[..k]) by {
      forall i | 0 <= i < k ensures q[..k][i] !in KeyStops { assert q[..k][i] == q[i]; }
    }
    if k < |q| && q[k] == '=' then
      var after := q[k + 1..];
      var v := Span(after, ValueStops);
      SpanStops(after, ValueStops);
      var value := after[..v];
      assert IsValue(value) by {
        forall i | 0 <= i < v ensures value[i] !in ValueStops { assert value[i] == after[i]; }
      }
      (q[..k], q[k + 1..][..v], q[k + 1 + v..])
    else
      (q[..k], "", q[k..])
  }

  /** `map[key] = value` for every capture in turn: a later capture of a key wins. */
  function Assign(m: map<string, string>, ps: seq<(string, string)>): map<string, string>
    decreases |ps|
  {
    if ps == [] then m else Assign(m[ps[0].0 := ps[0].1], ps[1..])
  }

  /** Assigning a first pair, then the rest. */
  lemma AssignCons(m: map<string, string>, p: (string, string), ps: seq<(string, string)>)
    ensures Assign(m, [p] + ps) == Assign(m[p.0 := p.1], ps)
  {
    assert ([p] + ps)[1..] == ps;
  }

  /** The object `_urlToObject` builds from `location.search`. */
  function UrlObject(search: string): map<string, string>
  {
    Assign(map[], Matches(QueryOf(search)))
  }

  /** The keys of the result: those of `m` and every captured key. */
  lemma {:induction false} AssignKey(m: map<string, string>, ps: seq<(string, string)>, k: string)
    ensures k in Assign(m, ps) <==> k in m || exists i :: 0 <= i < |ps| && ps[i].0 == k
    decreases |ps|
  {
    if ps != [] {
      var tail := ps[1..];
      AssignKey(m[ps[0].0 := ps[0].1], tail, k);
      if exists i :: 0 <= i < |ps| && ps[i].0 == k {
        var i :| 0 <= i < |ps| && ps[i].0 == k;
        if i > 0 { assert tail[i - 1].0 == k; }
      }
      if exists i :: 0 <= i < |tail| && tail[i].0 == k {
        var i :| 0 <= i < |tail| && tail[i].0 == k;
        assert ps[i + 1].0 == k;
      }
    }
  }

  /** A captured key holds the value of its last capture. */
  lemma {:induction false} AssignLast(m: map<string, string>, ps: seq<(string, string)>, i: int)
    requires 0 <= i < |ps|
    requires forall j :: i < j < |ps| ==> ps[j].0 != ps[i].0
    ensures ps[i].0 in Assign(m, ps) && Assign(m, ps)[ps[i].0] == ps[i].1
    decreases |ps|
  {
    var tail := ps[1..];
    var m' := m[ps[0].0 := ps[0].1];
    if i > 0 {
      assert tail[i - 1] == ps[i];
      forall j | i - 1 < j < |tail| ensures tail[j].0 != tail[i - 1].0 {
        assert tail[j] == ps[j + 1];
      }
      AssignLast(m', tail, i - 1);
    } else {
      forall j | 0 <= j < |tail| ensures tail[j].0 != ps[0].0 {
        assert tail[j] == ps[j + 1];
      }
      AssignUntouched(m', tail, ps[0].0);
    }
  }

  /** A key no capture mentions keeps its value. */
  lemma {:induction false} AssignUntouched(m: map<string, string>, ps: seq<(string, string)>, k: string)
    requires k in m
    requires forall j :: 0 <= j < |ps| ==> ps[j].0 != k
    ensures k in Assign(m, ps) && Assign(m, ps)[k] == m[k]
    decreases |ps|
  {
    if ps != [] {
      var tail := ps[1..];
      forall j | 0 <= j < |tail| ensures tail[j].0 != k {
        assert tail[j] == ps[j + 1];
      }
      AssignUntouched(m[ps[0].0 := ps[0].1], tail, k);
    }
  }

  /** The query string `k1=v1&k2=v2&...` of a list of pairs. */
  function Encode(ps: seq<(string, string)>): string
  {
    if ps == [] then ""
    else if |ps| == 1 then ps[0].0 + "=" + ps[0].1
    else ps[0].0 + "=" + ps[0].1 + "&" + Encode(ps[1..])
  }

  predicate WellFormed(ps: seq<(string, string)>)
  {
    forall i :: 0 <= i < |ps| ==> IsKey(ps[i].0) && IsValue(ps[i].1)
  }

  /**
   * `s` is the key `key` (the greedy run free of `&` and `=`), an `=`, the value
   * `value` (the greedy run after it free of `&`), then `rest`.
   */
  predicate PairAt(s: string, key: string, value: string, rest: string)
  {
    && s != [] && s[0] !in KeyStops
    && Span(s, KeyStops) == |key| && |key| < |s| && s[|key|] == '='
    && Span(s[|key| + 1..], ValueStops) == |value|
    && s[..|key|] == key && s[|key| + 1..][..|value|] == value && s[|key| + 1 + |value|..] == rest
  }

  /** `s` is the key `key`, not followed by `=`, then `rest`. */
  predicate KeyOnlyAt(s: string, key: string, rest: string)
  {
    && s != [] && s[0] !in KeyStops
    && Span(s, KeyStops) == |key| && !(|key| < |s| && s[|key|] == '=')
    && s[..|key|] == key && s[|key|..] == rest
  }

  /** The scan of one `k=v` followed by the text `rest`, which is empty or starts with `&`. */
  lemma MatchesPair(k: string, v: string, rest: string)
    requires IsKey(k) && IsValue(v)
    requires rest == [] || rest[0] == '&'
    ensures Matches(k + "=" + v + rest) == [(k, v)] + Matches(rest)
  {
    PairSpans(k, v, rest);
    MatchesWithParts(k + "=" + v + rest, k, v, rest);
  }

  /** A match at the start of `s` that has an `=`: the key, the value, and the scan of what follows. */
  lemma MatchesWithParts(s: string, key: string, value: string, rest: string)
    requires PairAt(s, key, value, rest)
    ensures Matches(s) == [(key, value)] + Matches(rest)
  {
    CaptureParts(s, key, value, rest);
    MatchesUnfold(s);
  }

  lemma CaptureParts(s: string, key: string, value: string, rest: string)
    requires PairAt(s, key, value, rest)
    ensures Capture(s) == (key, value, rest)
  {
    CaptureWithValue(s, |key|, |value|);
  }

  /** Where the scan of `k=v` followed by `rest` stops. */
  lemma PairSpans(k: string, v: string, rest: string)
    requires IsKey(k) && IsValue(v)
    requires rest == [] || rest[0] == '&'
    ensures PairAt(k + "=" + v + rest, k, v, rest)
  {
    var q := k + "=" + v + rest;
    assert q[0] == k[0];
    SpanIs(q, KeyStops, |k|);
    assert q[|k|] == '=';
    var after := q[|k| + 1..];
    assert after == v + rest;
    SpanIs(after, ValueStops, |v|);
    assert after[..|v|] == v;
    assert q[..|k|] == k;
    assert q[|k| + 1 + |v|..] == rest;
  }

  /** Scanning a well-formed query gives back exactly its pairs. */
  lemma {:induction false} MatchesEncode(ps: seq<(string, string)>)
    requires WellFormed(ps)
    ensures Matches(Encode(ps)) == ps
    decreases |ps|
  {
    if |ps| == 1 {
      MatchesPair(ps[0].0, ps[0].1, "");
      assert ps[0].0 + "=" + ps[0].1 + "" == Encode(ps);
    } else if |ps| > 1 {
      var tail := Encode(ps[1..]);
      MatchesPair(ps[0].0, ps[0].1, "&" + tail);
      assert ps[0].0 + "=" + ps[0].1 + ("&" + tail) == Encode(ps);
      assert ("&" + tail)[1..] == tail;
      MatchesEncode(ps[1..]);
      assert ps == [ps[0]] + ps[1..];
    }
  }

  /**
   * `_urlToObject` on `?k1=v1&k2=v2...` (keys free of `&` and `=`, values free of `&`):
   * the keys are exactly the given keys and each holds the raw value of its last occurrence.
   */
  lemma UrlObjectOfQuery(ps: seq<(string, string)>)
    requires WellFormed(ps)
    ensures forall k :: k in UrlObject("?" + Encode(ps)) <==> exists i :: 0 <= i < |ps| && ps[i].0 == k
    ensures forall i :: 0 <= i < |ps| && (forall j :: i < j < |ps| ==> ps[j].0 != ps[i].0) ==>
              UrlObject("?" + Encode(ps))[ps[i].0] == ps[i].1
  {
    assert QueryOf("?" + Encode(ps)) == Encode(ps);
    MatchesEncode(ps);
    forall k ensures k in UrlObject("?" + Encode(ps)) <==> exists i :: 0 <= i < |ps| && ps[i].0 == k {
      AssignKey(map[], ps, k);
    }
    forall i | 0 <= i < |ps| && (forall j :: i < j < |ps| ==> ps[j].0 != ps[i].0)
      ensures UrlObject("?" + Encode(ps))[ps[i].0] == ps[i].1
    {
      AssignLast(map[], ps, i);
    }
  }

  /** The capture at the start of `s` when an `=` follows the key. */
  lemma CaptureWithValue(s: string, k: nat, v: nat)
    requires s != [] && s[0] !in KeyStops
    requires k == Span(s, KeyStops) && k < |s| && s[k] == '='
    requires v == Span(s[k + 1..], ValueStops)
    ensures Capture(s) == (s[..k], s[k + 1..][..v], s[k + 1 + v..])
  {
  }

  /** A scan starting at a key character begins with its capture. */
  lemma MatchesUnfold(s: string)
    requires s != [] && s[0] !in KeyStops
    ensures Matches(s) == [(Capture(s).0, Capture(s).1)] + Matches(Capture(s).2)
  {
  }

  /** A match at the start of `s` without an `=`: the key, an empty value, and the scan of what follows. */
  lemma MatchesKeyOnly(s: string, key: string, rest: string)
    requires KeyOnlyAt(s, key, rest)
    ensures Matches(s) == [(key, "")] + Matches(rest)
  {
    CaptureKeyOnly(s, key, rest);
    MatchesUnfold(s);
  }

  lemma CaptureKeyOnly(s: string, key: string, rest: string)
    requires KeyOnlyAt(s, key, rest)
    ensures Capture(s) == (key, "", rest)
  {
  }

  /** The scan moves over a character where no match can start. */
  lemma MatchesSkip(q: string, i: int)
    requires 0 <= i < |q| && q[i] in KeyStops
    ensures Matches(q[i..]) == Matches(q[i + 1..])
  {
    assert q[i..][1..] == q[i + 1..];
  }

  /** The unfolding of `Matches` the scanning loop of `UrlToObject` relies on. */
  lemma MatchStep(q: string, i: int, j: int, e: int, value: string)
    requires 0 <= i < j <= e <= |q|
    requires forall t :: i <= t < j ==> q[t] !in KeyStops
    requires j == |q| || q[j] in KeyStops
    requires j < |q| && q[j] == '=' ==>
               j < e && value == q[j + 1..e] && (e == |q| || q[e] in ValueStops) &&
               forall t :: j < t < e ==> q[t] !in ValueStops
    requires !(j < |q| && q[j] == '=') ==> e == j && value == ""
    ensures Matches(q[i..]) == [(q[i..j], value)] + Matches(q[e..])
  {
    if j < |q| && q[j] == '=' {
      StepWithValue(q, i, j, e, value);
      MatchesWithParts(q[i..], q[i..j], value, q[e..]);
    } else {
      StepKeyOnly(q, i, j);
      MatchesKeyOnly(q[i..], q[i..j], q[e..]);
    }
  }

  /** How `q[i..]` splits into key, `=`, value and rest for `MatchesWithParts`. */
  lemma StepWithValue(q: string, i: int, j: int, e: int, value: string)
    requires 0 <= i < j < e <= |q|
    requires forall t :: i <= t < j ==> q[t] !in KeyStops
    requires q[j] == '='
    requires value == q[j + 1..e] && (e == |q| || q[e] in ValueStops)
    requires forall t :: j < t < e ==> q[t] !in ValueStops
    ensures PairAt(q[i..], q[i..j], value, q[e..])
  {
    var s := q[i..];
    var key := q[i..j];
    assert |key| == j - i && |value| == e - j - 1;
    SpanOfRun(q, i, j, KeyStops);
    assert s[..|key|] == key;
    var after := s[|key| + 1..];
    assert after == q[j + 1..];
    SpanOfRun(q, j + 1, e, ValueStops);
    assert Span(after, ValueStops) == |value|;
    assert after[..|value|] == value;
    assert s[|key| + 1 + |value|..] == q[e..];
  }

  /** How `q[i..]` splits into key and rest for `MatchesKeyOnly`. */
  lemma StepKeyOnly(q: string, i: int, j: int)
    requires 0 <= i < j <= |q|
    requires forall t :: i <= t < j ==> q[t] !in KeyStops
    requires j == |q| || q[j] in KeyStops
    requires !(j < |q| && q[j] == '=')
    ensures KeyOnlyAt(q[i..], q[i..j], q[j..])
  {
    SpanOfRun(q, i, j, KeyStops);
    assert q[i..][..j - i] == q[i..j];
    assert q[i..][j - i..] == q[j..];
  }

  /** The greedy run of `q[i..]` free of `stops` ends where the first stop character is. */
  lemma SpanOfRun(q: string, i: int, j: int, stops: set<char>)
    requires 0 <= i <= j <= |q|
    requires forall t :: i <= t < j ==> q[t] !in stops
    requires j == |q| || q[j] in stops
    ensures Span(q[i..], stops) == j - i
  {
    var s := q[i..];
    forall t | 0 <= t < j - i ensures s[t] !in stops {
      assert s[t] == q[i + t];
    }
    SpanIs(s, stops, j - i);
  }

  /** The end of the greedy run of `q` from `i` that holds none of `stops`. */
  method ScanRun(q: string, i: int, stops: set<char>) returns (j: int)
    requires 0 <= i <= |q|
    ensures i <= j <= |q|
    ensures forall t :: i <= t < j ==> q[t] !in stops
    ensures j == |q| || q[j] in stops
  {
    j := i;
    while j < |q| && q[j] !in stops
      invariant i <= j <= |q|
      invariant forall t :: i <= t < j ==> q[t] !in stops
    {
      j := j + 1;
    }
  }

  /** `_urlToObject`: the replace callback fills `map` for every match of `URL_RE`. */
  method UrlToObject(search: string) returns (m: map<string, string>)
    ensures m == UrlObject(search)
  {
    var q := QueryOf(search);
    m := map[];
    var i := 0;
    while i < |q|
      invariant 0 <= i <= |q|
      invariant Assign(m, Matches(q[i..])) == UrlObject(search)
      decreases |q| - i
    {
      if q[i] == '&' || q[i] == '=' {
        MatchesSkip(q, i);
        i := i + 1;
      } else {
        var j := ScanRun(q, i, KeyStops);
        var e := j;
        var value := "";
        if j < |q| && q[j] == '=' {
          e := ScanRun(q, j + 1, ValueStops);
          value := q[j + 1..e];
        }
        MatchStep(q, i, j, e, value);
        AssignCons(m, (q[i..j], value), Matches(q[e..]));
        m := m[q[i..j] := value];
        i := e;
      }
    }
  }

  //--------------------------------------------------------------------------
  //  _stripTags
  //--------------------------------------------------------------------------

  /** `s[i..j+1]` is what `TAGS_RE` = /<\/?[^>]+>/ matches at `i`: `<`, at least one non-`>`, then `>`. */
  predicate IsTagAt(s: string, i: int, j: int)
  {
    0 <= i && i + 2 <= j < |s| && s[i] == '<' && s[j] == '>' && forall t :: i < t < j ==> s[t] != '>'
  }

  ghost predicate HasTag(s: string)
  {
    exists i, j :: IsTagAt(s, i, j)
  }

  lemma TagLengthFacts(s: string, j: int)
    requires |s| > 0 && s[0] == '<'
    requires j == IndexOf(s[1..], ">")
    ensures j >= 1 ==> IsTagAt(s, 0, j + 1)
    ensures j < 1 ==> forall t :: !IsTagAt(s, 0, t)
    ensures j < 1 ==> (|s| >= 2 && s[1] == '>') || '>' !in s[1..]
  {
    var tail := s[1..];
    IndexOfFinds(tail, ">");
    forall t ensures OccursAt(tail, ">", t) <==> 0 <= t < |tail| && tail[t] == '>' {
      OccursChar(tail, '>', t);
    }
    if j >= 1 {
      forall t | 0 < t < j + 1 ensures s[t] != '>' {
        assert tail[t - 1] == s[t];
        assert !OccursAt(tail, ">", t - 1);
      }
    } else if j == 0 {
      assert s[1] == '>';
    } else {
      forall t | 0 <= t < |tail| ensures tail[t] != '>' {
        assert !OccursAt(tail, ">", t);
      }
    }
  }

  /** Length of the `TAGS_RE` match at the start of `s`, 0 when none starts there. */
  function TagLength(s: string): (n: nat)
    ensures n <= |s|
    ensures n > 0 ==> IsTagAt(s, 0, n - 1)
    ensures n == 0 ==> forall j :: !IsTagAt(s, 0, j)
    ensures n == 0 && |s| > 0 && s[0] == '<' ==> (|s| >= 2 && s[1] == '>') || '>' !in s[1..]
  {
    if |s| > 0 && s[0] == '<' then
      var j := IndexOf(s[1..], ">");
      TagLengthFacts(s, j);
      if j >= 1 then j + 2 else 0
    else
      0
  }

  /**
   * `s.replace(TAGS_RE, "")`: matches are removed left to right; where none starts
   * the character is kept. Nothing is added, and the result is never longer.
   */
  function StripTags(s: string): (r: string)
    ensures |r| <= |s|
    ensures forall c :: c in r ==> c in s
    decreases |s|
  {
    if s == [] then []
    else
      var n := TagLength(s);
      if n > 0 then StripTags(s[n..]) else [s[0]] + StripTags(s[1..])
  }

  /** A tag of `[c] + rest` that does not start at `c` is a tag of `rest`. */
  lemma TagInTail(c: char, rest: string, i: int, j: int)
    requires IsTagAt([c] + rest, i, j) && i > 0
    ensures IsTagAt(rest, i - 1, j - 1)
  {
    var r := [c] + rest;
    forall t | i - 1 < t < j - 1 ensures rest[t] != '>' {
      assert rest[t] == r[t + 1];
    }
  }

  /** Where no tag starts, the kept character does not start one in the result either. */
  lemma NoTagAtFront(s: string, j: int)
    requires s != [] && TagLength(s) == 0
    ensures !IsTagAt([s[0]] + StripTags(s[1..]), 0, j)
  {
    var rest := StripTags(s[1..]);
    var r := [s[0]] + rest;
    if s[0] == '<' && |s| >= 2 && s[1] == '>' {
      // the `>` right after the `<` is kept, so the `<` cannot start a tag
      var tail := s[1..];
      assert TagLength(tail) == 0;
      assert rest == [tail[0]] + StripTags(tail[1..]);
      assert r[1] == '>';
    } else if s[0] == '<' {
      // otherwise there is no `>` after the `<` at all
      assert '>' !in rest;
      if 1 <= j < |r| {
        assert r[j] == rest[j - 1];
      }
    }
  }

  /** No tag is left after stripping. */
  lemma {:induction false} StripTagsLeavesNoTag(s: string)
    ensures !HasTag(StripTags(s))
    decreases |s|
  {
    if s != [] {
      var n := TagLength(s);
      if n > 0 {
        StripTagsLeavesNoTag(s[n..]);
      } else {
        var rest := StripTags(s[1..]);
        StripTagsLeavesNoTag(s[1..]);
        var r := [s[0]] + rest;
        assert StripTags(s) == r;
        forall i, j | IsTagAt(r, i, j) ensures false {
          if i > 0 {
            TagInTail(s[0], rest, i, j);
          } else {
            NoTagAtFront(s, j);
          }
        }
      }
    }
  }

  /** Stripping a string without tags changes nothing. */
  lemma {:induction false} StripTagsKeepsTagFree(s: string)
    requires !HasTag(s)
    ensures StripTags(s) == s
    decreases |s|
  {
    if s != [] {
      assert TagLength(s) == 0;
      assert !HasTag(s[1..]) by {
        forall i, j | IsTagAt(s[1..], i, j) ensures false {
          assert IsTagAt(s, i + 1, j + 1);
        }
      }
      StripTagsKeepsTagFree(s[1..]);
    }
  }

  /** `_stripTags` is idempotent on strings. */
  lemma StripTagsIdempotent(s: string)
    ensures StripTags(StripTags(s)) == StripTags(s)
  {
    StripTagsLeavesNoTag(s);
    StripTagsKeepsTagFree(StripTags(s));
  }

  /** `_stripTags` on an object: every string field with tags removed. */
  function StrippedObject(data: map<string, string>): map<string, string>
  {
    map k | k in data :: StripTags(data[k])
  }

  /** `_stripTags` on the URL object: the `for...in` loop rewrites each truthy field in place. */
  method StripTagsInObject(data: map<string, string>) returns (r: map<string, string>)
    ensures r == StrippedObject(data)
    ensures forall k :: k in r ==> !HasTag(r[k])
  {
    r := data;
    var pending := data.Keys;
    while pending != {}
      invariant pending <= data.Keys
      invariant r.Keys == data.Keys
      invariant forall k :: k in data && k !in pending ==> r[k] == StripTags(data[k])
      invariant forall k :: k in pending ==> r[k] == data[k]
      decreases pending
    {
      var k :| k in pending;
      if r[k] != "" {
        r := r[k := StripTags(r[k])];
      }
      pending := pending - {k};
    }
    forall k | k in r ensures !HasTag(r[k]) {
      StripTagsLeavesNoTag(data[k]);
    }
  }

  //--------------------------------------------------------------------------
  //  _getUrlParamValues
  //--------------------------------------------------------------------------

  /** The `switch (item.toLowerCase())`: "true" and "false" in any letter case become booleans. */
  function Coerce(item: string): (r: Value)
    ensures r == Bool(true) <==> ToLowerAscii(item) == "true"
    ensures r == Bool(false) <==> ToLowerAscii(item) == "false"
    ensures r.Str? ==> r.s == item
    ensures r.Str? || r.Bool?
  {
    var lower := ToLowerAscii(item);
    if lower == "true" then Bool(true)
    else if lower == "false" then Bool(false)
    else Str(item)
  }

  /** The object `_getUrlParamValues` returns for a URL object and the allow-list `items`. */
  function ParamValues(urlObject: map<string, string>, items: seq<string>): map<string, Value>
  {
    map k | k in items && k in urlObject && urlObject[k] != "" :: Coerce(urlObject[k])
  }

  /** `_getUrlParamValues`: the loop over the allow-list. */
  method GetUrlParamValues(urlObject: map<string, string>, items: seq<string>) returns (obj: map<string, Value>)
    ensures obj == ParamValues(urlObject, items)
  {
    obj := map[];
    for i := 0 to |items|
      invariant obj.Keys == set k | k in items[..i] && k in urlObject && urlObject[k] != ""
      invariant forall k :: k in obj ==> obj[k] == Coerce(urlObject[k])
    {
      assert items[..i + 1] == items[..i] + [items[i]];
      var key := items[i];
      if key in urlObject && urlObject[key] != "" {
        obj := obj[key := Coerce(urlObject[key])];
      }
    }
    assert items[..|items|] == items;
  }

  /** The configuration layer the URL contributes: `_getUrlParamValues(settings.urlItems)`. */
  function UrlParamConfig(search: string, items: seq<string>): map<string, Value>
  {
    ParamValues(StrippedObject(UrlObject(search)), items)
  }

  /** `_createUrlParamsObject` followed by `_getUrlParamValues`. */
  method ReadUrlParams(search: string, items: seq<string>) returns (obj: map<string, Value>)
    ensures obj == UrlParamConfig(search, items)
  {
    var raw := UrlToObject(search);
    var clean := StripTagsInObject(raw);
    obj := GetUrlParamValues(clean, items);
  }

  /**
   * What the URL layer holds: only allowed keys whose stripped value is non-empty,
   * each the coerced, tag-free value; nothing at all for an empty allow-list.
   */
  lemma UrlParamConfigShape(search: string, items: seq<string>)
    ensures forall k :: k in UrlParamConfig(search, items) ==> k in items
    ensures forall k :: k in UrlParamConfig(search, items) <==>
              k in items && k in UrlObject(search) && StripTags(UrlObject(search)[k]) != ""
    ensures forall k :: k in UrlParamConfig(search, items) ==>
              UrlParamConfig(search, items)[k] == Coerce(StripTags(UrlObject(search)[k]))
    ensures items == [] ==> UrlParamConfig(search, items) == map[]
  {
  }

  /**
   * End to end for `?k1=v1&k2=v2...`: an allowed key whose last value strips to a
   * non-empty text holds that text coerced.
   */
  lemma UrlParamConfigOfQuery(ps: seq<(string, string)>, items: seq<string>, i: int)
    requires WellFormed(ps)
    requires 0 <= i < |ps| && forall j :: i < j < |ps| ==> ps[j].0 != ps[i].0
    requires ps[i].0 in items && StripTags(ps[i].1) != ""
    ensures ps[i].0 in UrlParamConfig("?" + Encode(ps), items)
    ensures UrlParamConfig("?" + Encode(ps), items)[ps[i].0] == Coerce(StripTags(ps[i].1))
  {
    var u := UrlObject("?" + Encode(ps));
    var key := ps[i].0;
    assert key in u && u[key] == ps[i].1 by {
      assert QueryOf("?" + Encode(ps)) == Encode(ps);
      MatchesEncode(ps);
      AssignLast(map[], ps, i);
    }
    var clean := StrippedObject(u);
    assert key in clean && clean[key] == StripTags(ps[i].1);
    assert key in ParamValues(clean, items);
  }
}
