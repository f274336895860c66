/**
 * The JavaScript string built-ins the client relies on: `includes`,
 * `split` with a non-empty separator (through the leftmost search it
 * performs), and `trim`. Strings are
 * sequences of characters; the client only ever searches for ASCII
 * separators, so UTF-16 code units and Unicode scalars agree here.
 */
module JsString {
  import opened Wrappers

  /** `sep` occurs in `s` starting at index `i`. */
  predicate MatchAt(s: string, sep: string, i: int) {
    0 <= i && i + |sep| <= |s| && s[i..i + |sep|] == sep
  }

  /** `s.includes(sep)`. */
  predicate Contains(s: string, sep: string) {
    exists i :: 0 <= i <= |s| && MatchAt(s, sep, i)
  }

  /**
   * The leftmost occurrence of `sep` at or after `from`, the search that
   * `split` performs for a non-empty separator; `None` when there is none.
   * (For an empty `sep` past the end it answers `None`, unlike
   * `String.prototype.indexOf`, which the client does not call.)
   */
  function IndexOf(s: string, sep: string, from: nat): (r: Option<nat>)
    ensures r.Some? ==> from <= r.value && MatchAt(s, sep, r.value)
    ensures forall j :: from <= j && (r.None? || j < r.value) ==> !MatchAt(s, sep, j)
    decreases |s| - from
  {
    if from + |sep| > |s| then None
    else if s[from..from + |sep|] == sep then Some(from)
    else IndexOf(s, sep, from + 1)
  }

  /**
   * `s.split(sep)`: the pieces between the leftmost non-overlapping
   * occurrences of `sep`, scanning from the left. Never empty: a string
   * without `sep` (the empty string included) is one piece.
   */
  function Split(s: string, sep: string): (parts: seq<string>)
    requires sep != []
    ensures |parts| >= 1
    decreases |s|
  {
    match IndexOf(s, sep, 0)
    case None => [s]
    case Some(i) => [s[..i]] + Split(s[i + |sep|..], sep)
  }

  /** `parts.join(sep)`, the inverse direction of `Split`. */
  function Join(parts: seq<string>, sep: string): string {
    if |parts| == 0 then ""
    else if |parts| == 1 then parts[0]
    else parts[0] + sep + Join(parts[1..], sep)
  }

  /** Joining the pieces of a split with the same separator gives back the string. */
  lemma {:induction false} JoinSplit(s: string, sep: string)
    requires sep != []
    ensures Join(Split(s, sep), sep) == s
    decreases |s|
  {
    var found := IndexOf(s, sep, 0);
    if found.Some? {
      var i := found.value;
      var rest := s[i + |sep|..];
      JoinSplit(rest, sep);
      CutAt(s, sep, i);
      JoinCons(s[..i], Split(rest, sep), sep);
    }
  }

  /** A string around an occurrence of `sep` at `i`. */
  lemma CutAt(s: string, sep: string, i: nat)
    requires MatchAt(s, sep, i)
    ensures s == s[..i] + sep + s[i + |sep|..]
  {
    assert s[i..] == s[i..i + |sep|] + s[i + |sep|..];
    assert s == s[..i] + s[i..];
  }

  lemma JoinCons(head: string, tail: seq<string>, sep: string)
    requires tail != []
    ensures Join([head] + tail, sep) == head + sep + Join(tail, sep)
  {
    assert ([head] + tail)[1..] == tail;
  }

  /** No piece of a split contains the separator. */
  lemma {:induction false} SplitPiecesFree(s: string, sep: string)
    requires sep != []
    ensures forall k :: 0 <= k < |Split(s, sep)| ==> !Contains(Split(s, sep)[k], sep)
    decreases |s|
  {
    match IndexOf(s, sep, 0)
    case None =>
    case Some(i) =>
      var rest := s[i + |sep|..];
      SplitPiecesFree(rest, sep);
      var head := s[..i];
      forall j | MatchAt(head, sep, j) ensures false {
        assert head[j..j + |sep|] == s[j..j + |sep|];
        assert MatchAt(s, sep, j);
      }
      var parts := Split(s, sep);
      assert parts == [head] + Split(rest, sep);
      forall k | 0 <= k < |parts| ensures !Contains(parts[k], sep) {
        if k > 0 { assert parts[k] == Split(rest, sep)[k - 1]; }
      }
  }

  /** A split yields a single piece exactly when the separator does not occur. */
  lemma SplitSingle(s: string, sep: string)
    requires sep != []
    ensures !Contains(s, sep) <==> Split(s, sep) == [s]
    ensures Contains(s, sep) ==> |Split(s, sep)| >= 2
  {
    if Contains(s, sep) {
      var i :| MatchAt(s, sep, i);
      assert IndexOf(s, sep, 0).Some?;
    }
  }

  /** For a one-character separator, containment is plain membership. */
  lemma ContainsChar(s: string, c: char)
    ensures Contains(s, [c]) <==> c in s
  {
    if c in s {
      var i :| 0 <= i < |s| && s[i] == c;
      assert MatchAt(s, [c], i);
    }
    if Contains(s, [c]) {
      var i :| 0 <= i <= |s| && MatchAt(s, [c], i);
      assert s[i..i + 1][0] == s[i];
    }
  }

  /** Splitting on a character cuts at its first occurrence. */
  lemma SplitAtChar(a: string, c: char, b: string)
    requires c !in a
    ensures Split(a + [c] + b, [c]) == [a] + Split(b, [c])
  {
    var s := a + [c] + b;
    var k := |a|;
    assert MatchAt(s, [c], k) by { assert s[k..k + 1] == [c]; }
    var found := IndexOf(s, [c], 0);
    assert s[found.value..found.value + 1][0] == s[found.value];
    assert found.value == k;
    assert s[..k] == a;
    assert s[k + 1..] == b;
  }

  /** The characters `trim` removes: ECMAScript WhiteSpace and LineTerminator. */
  predicate IsSpace(c: char) {
    c == '\t' || c == '\n' || c == '\U{000B}' || c == '\U{000C}' || c == '\r' ||
    c == ' ' || c == '\U{00A0}' || c == '\U{1680}' ||
    ('\U{2000}' <= c <= '\U{200A}') ||
    c == '\U{2028}' || c == '\U{2029}' || c == '\U{202F}' || c == '\U{205F}' ||
    c == '\U{3000}' || c == '\U{FEFF}'
  }

  predicate AllSpace(s: string) {
    forall i :: 0 <= i < |s| ==> IsSpace(s[i])
  }

  /** `s.trimStart()`: the suffix left after removing every leading space. */
  function TrimStart(s: string): (r: string)
    ensures |r| <= |s| && r == s[|s| - |r|..]
    ensures AllSpace(s[..|s| - |r|])
    ensures r != [] ==> !IsSpace(r[0])
  {
    if s != [] && IsSpace(s[0]) then
      var r := TrimStart(s[1..]);
      TrimStartStep(s, r);
      r
    else s
  }

  lemma TrimStartStep(s: string, r: string)
    requires s != [] && IsSpace(s[0])
    requires |r| <= |s| - 1 && r == s[1..][|s| - 1 - |r|..]
    requires AllSpace(s[1..][..|s| - 1 - |r|])
    ensures r == s[|s| - |r|..] && AllSpace(s[..|s| - |r|])
  {
    var k := |s| - |r|;
    assert s[1..][k - 1..] == s[k..];
    var dropped := s[..k];
    var rest := s[1..][..k - 1];
    forall i | 0 <= i < k ensures IsSpace(dropped[i]) {
      if i > 0 {
        assert dropped[i] == rest[i - 1];
        assert IsSpace(rest[i - 1]);
      } else {
        assert dropped[0] == s[0];
      }
    }
  }

  /** `s.trimEnd()`: the prefix left after removing every trailing space. */
  function TrimEnd(s: string): (r: string)
    ensures |r| <= |s| && r == s[..|r|]
    ensures AllSpace(s[|r|..])
    ensures r != [] ==> !IsSpace(r[|r| - 1])
  {
    if s != [] && IsSpace(s[|s| - 1]) then
      var r := TrimEnd(s[..|s| - 1]);
      TrimEndStep(s, r);
      r
    else s
  }

  lemma TrimEndStep(s: string, r: string)
    requires s != [] && IsSpace(s[|s| - 1])
    requires |r| <= |s| - 1 && r == s[..|s| - 1][..|r|]
    requires AllSpace(s[..|s| - 1][|r|..])
    ensures r == s[..|r|] && AllSpace(s[|r|..])
  {
    var k := |r|;
    assert s[..|s| - 1][..k] == s[..k];
    var dropped := s[k..];
    var rest := s[..|s| - 1][k..];
    forall i | 0 <= i < |dropped| ensures IsSpace(dropped[i]) {
      if i < |rest| {
        assert dropped[i] == rest[i];
        assert IsSpace(rest[i]);
      } else {
        assert dropped[i] == s[|s| - 1];
      }
    }
  }

  /** `s.trim()`. */
  function Trim(s: string): string {
    TrimEnd(TrimStart(s))
  }

  /** A trimmed string neither starts nor ends with a space. */
  lemma TrimEnds(s: string)
    ensures Trim(s) != [] ==> !IsSpace(Trim(s)[0]) && !IsSpace(Trim(s)[|Trim(s)| - 1])
  {
    var t := TrimStart(s);
    var r := TrimEnd(t);
    if r != [] {
      assert r[0] == t[0];
    }
  }

  lemma {:induction false} TrimStartAllSpace(s: string)
    requires AllSpace(s)
    ensures TrimStart(s) == []
  {
    if s != [] {
      assert AllSpace(s[1..]) by {
        forall i | 0 <= i < |s| - 1 ensures IsSpace(s[1..][i]) { assert s[1..][i] == s[i + 1]; }
      }
      TrimStartAllSpace(s[1..]);
    }
  }

  /** A trimmed string is empty exactly when the string is all spaces. */
  lemma TrimEmpty(s: string)
    ensures Trim(s) == [] <==> AllSpace(s)
  {
    var t := TrimStart(s);
    if Trim(s) == [] {
      assert AllSpace(t[0..]);
      assert t == [];
      forall i | 0 <= i < |s| ensures IsSpace(s[i]) {
        assert s[i] == s[..|s|][i];
      }
    }
    if AllSpace(s) {
      TrimStartAllSpace(s);
    }
  }
}
