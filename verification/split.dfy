/**
 * JavaScript's `String.prototype.split` with a non-empty string separator, which the
 * translator uses to cut filter keys on "__" and operators on "_".
 *
 * The search runs left to right and matches never overlap, so "a___b" split on "__" is
 * ["a", "_b"], and a string without the separator (the empty string included) is a
 * single part. `Split` and `Join` are inverse to each other: `JoinSplit` and `SplitJoin`,
 * together with `SplitPieces`, characterise `Split` completely.
 */
module StringSplit {
  import opened Wrappers

  /** `sep` occurs in `s` starting at index `i`. */
  predicate MatchAt(s: string, sep: string, i: int) {
    0 <= i && i + |sep| <= |s| && s[i..i + |sep|] == sep
  }

  /** A match of a two-character separator at `j` is its two characters at `j` and `j + 1`. */
  lemma TwoCharMatchAt(s: string, sep: string, j: int)
    requires |sep| == 2
    ensures MatchAt(s, sep, j) ==> s[j] == sep[0] && s[j + 1] == sep[1]
  {
    if MatchAt(s, sep, j) {
      assert s[j..j + 2][0] == s[j] && s[j..j + 2][1] == s[j + 1];
    }
  }

  /** `sep` occurs somewhere in `s`. */
  predicate Contains(s: string, sep: string) {
    exists i :: 0 <= i <= |s| && MatchAt(s, sep, i)
  }

  /**
   * `p` can stand before a separator in a split: no occurrence of `sep` starts inside `p`,
   * not even one that runs on into the separator that follows it. For "__" this says that
   * `p` has no "__" and does not end with "_".
   */
  predicate IsPiece(p: string, sep: string) {
    forall j :: 0 <= j < |p| ==> !MatchAt(p + sep, sep, j)
  }

  /** The first occurrence of `sep` in `s` at or after `from` (`String.prototype.indexOf`). */
  function IndexOf(s: string, sep: string, from: nat): (r: Option<nat>)
    ensures r.Some? ==> from <= r.value && r.value + |sep| <= |s|
    decreases |s| - from
  {
    if from + |sep| > |s| then None
    else if s[from..from + |sep|] == sep then Some(from)
    else IndexOf(s, sep, from + 1)
  }

  /** `IndexOf` finds a match, and no match lies between `from` and the one it finds (or the end). */
  lemma {:induction false} IndexOfFirst(s: string, sep: string, from: nat)
    ensures var r := IndexOf(s, sep, from);
      (r.Some? ==> MatchAt(s, sep, r.value))
      && forall j :: from <= j && (r.None? || j < r.value) ==> !MatchAt(s, sep, j)
    decreases |s| - from
  {
    if from + |sep| <= |s| && s[from..from + |sep|] != sep {
      IndexOfFirst(s, sep, from + 1);
    }
  }

  /** `s.split(sep)`: the pieces between successive leftmost, non-overlapping occurrences. */
  function Split(s: string, sep: string): (parts: seq<string>)
    requires sep != []
    ensures parts != []
    decreases |s|
  {
    match IndexOf(s, sep, 0)
    case None => [s]
    case Some(i) => [s[..i]] + Split(s[i + |sep|..], sep)
  }

  /** `parts.join(sep)`. */
  function Join(parts: seq<string>, sep: string): string
    decreases |parts|
  {
    if parts == [] then ""
    else if |parts| == 1 then parts[0]
    else parts[0] + sep + Join(parts[1..], sep)
  }

  /** Two parts join around one separator. */
  lemma JoinTwo(a: string, b: string, sep: string)
    ensures Join([a, b], sep) == a + sep + b
  {
    assert [a, b][1..] == [b];
  }

  /** Three parts join around two separators. */
  lemma JoinThree(a: string, b: string, c: string, sep: string)
    ensures Join([a, b, c], sep) == a + sep + b + sep + c
  {
    assert [a, b, c][1..] == [b, c];
    JoinTwo(b, c, sep);
    Associate(a + sep, b + sep, c);
    Associate(a + sep, b, sep);
  }

  /** Concatenation is associative. */
  lemma Associate<T>(a: seq<T>, b: seq<T>, c: seq<T>)
    ensures (a + b) + c == a + (b + c)
  {
  }

  /** Splitting loses nothing: joining the parts back gives the original string. */
  lemma {:induction false} JoinSplit(s: string, sep: string)
    requires sep != []
    ensures Join(Split(s, sep), sep) == s
    decreases |s|
  {
    IndexOfFirst(s, sep, 0);
    match IndexOf(s, sep, 0)
    case None =>
    case Some(i) =>
      var rest := s[i + |sep|..];
      JoinSplit(rest, sep);
      var tail := Split(rest, sep);
      assert Split(s, sep) == [s[..i]] + tail;
      assert ([s[..i]] + tail)[1..] == tail;
      assert s == s[..i] + sep + rest;
  }

  /** A match inside a prefix of `s` is a match in `s`. */
  lemma MatchInPrefix(s: string, prefix: string, sep: string, j: int)
    requires prefix <= s
    requires MatchAt(prefix, sep, j)
    ensures MatchAt(s, sep, j)
  {
    assert s[j..j + |sep|] == prefix[j..j + |sep|];
  }

  /** The text before the first match is a piece: no match starts inside it. */
  lemma BeforeFirstMatchIsPiece(s: string, sep: string, i: nat)
    requires IndexOf(s, sep, 0) == Some(i)
    ensures IsPiece(s[..i], sep)
  {
    IndexOfFirst(s, sep, 0);
    var p := s[..i];
    assert p + sep <= s;
    forall j | 0 <= j < |p|
      ensures !MatchAt(p + sep, sep, j)
    {
      if MatchAt(p + sep, sep, j) {
        MatchInPrefix(s, p + sep, sep, j);
        assert false;
      }
    }
  }

  /**
   * Every part but the last is a piece in the sense of `IsPiece`, and the last part has no
   * occurrence of the separator: the split always cuts at the leftmost match.
   */
  lemma {:induction false} SplitPieces(s: string, sep: string)
    requires sep != []
    ensures forall k :: 0 <= k < |Split(s, sep)| - 1 ==> IsPiece(Split(s, sep)[k], sep)
    ensures !Contains(Split(s, sep)[|Split(s, sep)| - 1], sep)
    decreases |s|
  {
    match IndexOf(s, sep, 0)
    case None =>
      IndexOfFirst(s, sep, 0);
    case Some(i) =>
      var rest := s[i + |sep|..];
      SplitPieces(rest, sep);
      BeforeFirstMatchIsPiece(s, sep, i);
      var parts, tail := Split(s, sep), Split(rest, sep);
      assert parts == [s[..i]] + tail;
      assert parts[|parts| - 1] == tail[|tail| - 1];
      assert forall k :: 1 <= k < |parts| ==> parts[k] == tail[k - 1];
  }

  /** The first match in `p + sep + t` is the one right after `p` when `p` is a piece. */
  lemma FirstMatchAfterPiece(p: string, t: string, sep: string)
    requires IsPiece(p, sep)
    ensures IndexOf(p + sep + t, sep, 0) == Some(|p|)
  {
    var s := p + sep + t;
    IndexOfFirst(s, sep, 0);
    assert s[|p|..|p| + |sep|] == sep;
    assert MatchAt(s, sep, |p|);
    forall j | 0 <= j < |p|
      ensures !MatchAt(s, sep, j)
    {
      if MatchAt(s, sep, j) {
        assert s[j..j + |sep|] == (p + sep)[j..j + |sep|];
        assert MatchAt(p + sep, sep, j);
        assert false;
      }
    }
  }

  /**
   * Conversely, pieces joined by the separator split back into exactly those pieces, so a
   * list of parts is `Split(s, sep)` if and only if it joins to `s`, all parts but the last
   * are pieces and the last has no separator.
   */
  lemma {:induction false} SplitJoin(parts: seq<string>, sep: string)
    requires sep != [] && parts != []
    requires forall k :: 0 <= k < |parts| - 1 ==> IsPiece(parts[k], sep)
    requires !Contains(parts[|parts| - 1], sep)
    ensures Split(Join(parts, sep), sep) == parts
    decreases |parts|
  {
    var s := Join(parts, sep);
    if |parts| == 1 {
      IndexOfFirst(s, sep, 0);
      assert IndexOf(s, sep, 0).None?;
    } else {
      var p, t := parts[0], Join(parts[1..], sep);
      assert s == p + sep + t;
      FirstMatchAfterPiece(p, t, sep);
      assert s[..|p|] == p;
      assert s[|p| + |sep|..] == t;
      SplitJoin(parts[1..], sep);
      assert parts == [p] + parts[1..];
    }
  }
}
