/**
 * The variable-reference pattern `\${var:(.*)}` that MsTeamsTarget.ResolveVar
 * applies to a configuration string, with the semantics of an unanchored,
 * default-option .NET regular expression: the leftmost start position wins,
 * `(.*)` is greedy, and `.` matches every character except '\n'.
 *
 * `MatchAt` states what a match is; `FindFrom` and `CapturedKey` compute the
 * match the regex engine reports, and their contracts prove that it is the
 * leftmost one and, at that start, the longest one.
 */
module VarReference {
  import opened Optional

  /** The literal text `${var:` that opens a reference. */
  const Opening: string := "${var:"
  const Closing: char := '}'
  const Newline: char := '\n'

  /** `s` holds the opening `${var:` at position `i`. */
  predicate OpensAt(s: string, i: int)
  {
    0 <= i && i + |Opening| <= |s| && s[i..i + |Opening|] == Opening
  }

  /** No newline occurs in `s[lo..hi]`, so `.*` can span it. */
  predicate SameLine(s: string, lo: int, hi: int)
    requires 0 <= lo <= hi <= |s|
  {
    forall k :: lo <= k < hi ==> s[k] != Newline
  }

  /**
   * The pattern matches `s[i..j + 1]`: the opening at `i`, a closing brace at
   * `j`, and the capture group `s[i + 6..j]` free of newlines.
   */
  ghost predicate MatchAt(s: string, i: int, j: int)
  {
    && OpensAt(s, i)
    && i + |Opening| <= j < |s|
    && s[j] == Closing
    && SameLine(s, i + |Opening|, j)
  }

  /** The match a backtracking engine reports: no match starts further left, and none at `i` ends further right. */
  ghost predicate LeftmostGreedy(s: string, i: int, j: int)
  {
    && MatchAt(s, i, j)
    && (forall i', j' :: i' < i ==> !MatchAt(s, i', j'))
    && (forall j' :: j < j' ==> !MatchAt(s, i, j'))
  }

  /** Leftmost-greedy matching picks at most one match. */
  lemma LeftmostGreedyUnique(s: string, i: int, j: int, i': int, j': int)
    requires LeftmostGreedy(s, i, j) && LeftmostGreedy(s, i', j')
    ensures i == i' && j == j'
  {
  }

  /** The end of the line that starts at `lo`: the first newline at or after `lo`, or `|s|`. */
  function LineEnd(s: string, lo: nat): (e: nat)
    requires lo <= |s|
    ensures lo <= e <= |s|
    ensures SameLine(s, lo, e)
    ensures e < |s| ==> s[e] == Newline
    decreases |s| - lo
  {
    if lo == |s| || s[lo] == Newline then lo else LineEnd(s, lo + 1)
  }

  /** The last closing brace in `s[lo..hi]`, if there is one. */
  function LastClosing(s: string, lo: nat, hi: nat): (r: Option<nat>)
    requires lo <= hi <= |s|
    ensures r.Some? ==> lo <= r.value < hi && s[r.value] == Closing
    ensures r.Some? ==> forall k :: r.value < k < hi ==> s[k] != Closing
    ensures r.None? ==> forall k :: lo <= k < hi ==> s[k] != Closing
    decreases hi - lo
  {
    if lo == hi then None
    else if s[hi - 1] == Closing then Some(hi - 1)
    else LastClosing(s, lo, hi - 1)
  }

  /**
   * Tries the pattern at start position `i`: `.*` first runs to the end of the
   * line, then backs off to the last closing brace on it.
   */
  function MatchFrom(s: string, i: nat): (r: Option<nat>)
    ensures r.Some? ==> MatchAt(s, i, r.value)
    ensures r.Some? ==> forall j :: r.value < j ==> !MatchAt(s, i, j)
    ensures r.None? ==> forall j :: !MatchAt(s, i, j)
  {
    if OpensAt(s, i) then
      var lo := i + |Opening|;
      LastClosing(s, lo, LineEnd(s, lo))
    else
      None
  }

  /** The leftmost match whose start is at or after `from`, as (start, closing brace). */
  function FindFrom(s: string, from: nat): (r: Option<(nat, nat)>)
    requires from <= |s|
    ensures r.Some? ==> from <= r.value.0 && MatchAt(s, r.value.0, r.value.1)
    ensures r.Some? ==> forall i, j :: from <= i < r.value.0 ==> !MatchAt(s, i, j)
    ensures r.Some? ==> forall j :: r.value.1 < j ==> !MatchAt(s, r.value.0, j)
    ensures r.None? ==> forall i, j :: from <= i ==> !MatchAt(s, i, j)
    decreases |s| - from
  {
    if from == |s| then
      None
    else
      match MatchFrom(s, from)
      case Some(j) => Some((from, j))
      case None => FindFrom(s, from + 1)
  }

  /**
   * The text of capture group 1 (the variable name) of the regex match on `s`,
   * or `None` when the pattern does not match.
   */
  function CapturedKey(s: string): (r: Option<string>)
    ensures r.None? <==> forall i, j :: !MatchAt(s, i, j)
    ensures forall i, j :: LeftmostGreedy(s, i, j) ==> r == Some(s[i + |Opening|..j])
    ensures r.Some? ==> exists i, j :: LeftmostGreedy(s, i, j)
  {
    match FindFrom(s, 0)
    case None => None
    case Some((i, j)) =>
      assert LeftmostGreedy(s, i, j);  // the witness of the last ensures
      forall i', j' | LeftmostGreedy(s, i', j') ensures i' == i && j' == j {
        LeftmostGreedyUnique(s, i, j, i', j');
      }
      Some(s[i + |Opening|..j])
  }

  /**
   * A reference preceded by text without `$`, and followed by text with no `}`
   * before its first newline, yields exactly the text between its opening and
   * its closing brace, provided that text stays on one line.
   */
  lemma KeyOfReference(prefix: string, key: string, suffix: string)
    requires '$' !in prefix && Newline !in key && Closing !in suffix[..LineEnd(suffix, 0)]
    ensures CapturedKey(prefix + Opening + key + [Closing] + suffix) == Some(key)
  {
    var s := prefix + Opening + key + [Closing] + suffix;
    var i, j := |prefix|, |prefix| + |Opening| + |key|;
    assert s[i..i + |Opening|] == Opening;
    assert s[i + |Opening|..j] == key;
    assert MatchAt(s, i, j);
    forall i', j' | i' < i ensures !MatchAt(s, i', j') {
      if 0 <= i' {
        assert s[i'] == prefix[i'];
      }
    }
    forall j' | j < j' ensures !MatchAt(s, i, j') {
      if j' < |s| && s[j'] == Closing && SameLine(s, i + |Opening|, j') {
        var t := j' - j - 1;
        assert s[j'] == suffix[t];
        forall k | 0 <= k < t ensures suffix[k] != Newline {
          assert suffix[k] == s[j + 1 + k];
        }
      }
    }
    assert LeftmostGreedy(s, i, j);
  }

  /**
   * The capture is greedy, so with two references on one line the key runs
   * from the first opening to the last closing brace.
   */
  lemma TwoReferencesOneKey()
    ensures CapturedKey("${var:a}-${var:b}") == Some("a}-${var:b")
  {
    KeyOfReference("", "a}-${var:b", "");
    assert "" + Opening + "a}-${var:b" + [Closing] + "" == "${var:a}-${var:b}";
  }

  /** A `}` later on the same line moves the greedy end of the key. */
  lemma LaterBraceOnLineExtendsKey()
    ensures CapturedKey("x${var:a}y}") == Some("a}y")
  {
    KeyOfReference("x", "a}y", "");
    assert "x" + Opening == "x${var:";
    assert "x${var:" + "a}y" + [Closing] + "" == "x${var:a}y}";
  }

  /** A `}` on a later line does not: `.` stops at '\n', but matches '\r'. */
  lemma BraceOnNextLineIgnored()
    ensures CapturedKey("${var:a}\r\n}") == Some("a")
  {
    KeyOfReference("", "a", "\r\n}");
    assert "" + Opening + "a" + [Closing] + "\r\n}" == "${var:a}\r\n}";
  }
}
