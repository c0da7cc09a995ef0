/** The text helpers of internal/wabridge: trimming, truncation, nullable
    strings. A Dafny character is one Unicode scalar value, a Go rune. */
module Text {
  import opened Base

  const ELLIPSIS := "\U{2026}"

  predicate IsSpace(c: char) {
    || c in {'\t', '\n', '\U{0B}', '\U{0C}', '\r', ' ', '\U{85}', '\U{A0}', '\U{1680}'}
    || '\U{2000}' <= c <= '\U{200A}'
    || c in {'\U{2028}', '\U{2029}', '\U{202F}', '\U{205F}', '\U{3000}'}
  }

  function TrimLeft(s: string, space: char -> bool): string {
    if s != "" && space(s[0]) then TrimLeft(s[1..], space) else s
  }

  function TrimRight(s: string, space: char -> bool): string {
    if s != "" && space(s[|s| - 1]) then TrimRight(s[..|s| - 1], space) else s
  }

  /** strings.TrimSpace, for a given notion of space. */
  function TrimOf(s: string, space: char -> bool): string {
    TrimRight(TrimLeft(s, space), space)
  }

  /** strings.TrimSpace */
  function Trim(s: string): string {
    TrimOf(s, IsSpace)
  }

  /** The empty string is stored as NULL. */
  function NullString(s: string): Option<string> {
    if s == "" then None else Some(s)
  }

  /** At most n characters, then an ellipsis when something was cut. */
  function Truncate(s: string, n: nat): string {
    if |s| <= n then s else s[..n] + ELLIPSIS
  }

  /** At most n characters. */
  function TruncateRunes(s: string, n: nat): string {
    if |s| <= n then s else s[..n]
  }

  predicate AllDigits(s: string) {
    forall k | 0 <= k < |s| :: '0' <= s[k] <= '9'
  }

  /** The first c from position i on. */
  function IndexFrom(s: string, c: char, i: nat): (r: Option<nat>)
    requires i <= |s|
    ensures r.Some? ==> i <= r.value < |s| && s[r.value] == c && forall j :: i <= j < r.value ==> s[j] != c
    ensures r.None? ==> forall j :: i <= j < |s| ==> s[j] != c
    decreases |s| - i
  {
    if i == |s| then None else if s[i] == c then Some(i) else IndexFrom(s, c, i + 1)
  }

  // ---------------------------------------------------------------- trimming

  ghost predicate AllSpace(s: string, space: char -> bool) {
    forall k | 0 <= k < |s| :: space(s[k])
  }

  lemma {:induction false} LeftPart(s: string, space: char -> bool) returns (left: string)
    ensures s == left + TrimLeft(s, space) && AllSpace(left, space)
    ensures TrimLeft(s, space) != "" ==> !space(TrimLeft(s, space)[0])
  {
    left := "";
    if s != "" && space(s[0]) {
      left := LeftPart(s[1..], space);
      left := [s[0]] + left;
    }
  }

  lemma {:induction false} RightPart(s: string, space: char -> bool) returns (right: string)
    ensures s == TrimRight(s, space) + right && AllSpace(right, space)
  {
    right := "";
    if s != "" && space(s[|s| - 1]) {
      right := RightPart(s[..|s| - 1], space);
      right := right + [s[|s| - 1]];
    }
  }

  /** What trimming drops is space. */
  lemma TrimParts(s: string, space: char -> bool) returns (left: string, right: string)
    ensures s == left + TrimOf(s, space) + right && AllSpace(left, space) && AllSpace(right, space)
  {
    left := LeftPart(s, space);
    right := RightPart(TrimLeft(s, space), space);
  }

  lemma {:induction false} LeftSpace(left: string, s: string, space: char -> bool)
    requires AllSpace(left, space) && (s == "" || !space(s[0]))
    ensures TrimLeft(left + s, space) == s
  {
    if left == "" {
      assert left + s == s;
    } else {
      assert (left + s)[1..] == left[1..] + s;
      LeftSpace(left[1..], s, space);
    }
  }

  lemma {:induction false} RightSpace(s: string, right: string, space: char -> bool)
    requires AllSpace(right, space) && (s == "" || !space(s[|s| - 1]))
    ensures TrimRight(s + right, space) == s
  {
    if right == "" {
      assert s + right == s;
    } else {
      var n := |right| - 1;
      assert (s + right)[..|s| + n] == s + right[..n];
      RightSpace(s, right[..n], space);
    }
  }

  /** Trimming drops all the space around a text that neither begins nor ends with some. */
  lemma TrimsBack(left: string, s: string, right: string, space: char -> bool)
    requires AllSpace(left, space) && AllSpace(right, space)
    requires s != "" && !space(s[0]) && !space(s[|s| - 1])
    ensures TrimOf(left + s + right, space) == s
  {
    assert left + s + right == left + (s + right);
    LeftSpace(left, s + right, space);
    RightSpace(s, right, space);
  }

  lemma {:induction false} RightEdge(s: string, space: char -> bool)
    ensures TrimRight(s, space) != "" ==> !space(TrimRight(s, space)[|TrimRight(s, space)| - 1])
  {
    if s != "" && space(s[|s| - 1]) {
      RightEdge(s[..|s| - 1], space);
    }
  }

  /** Trimming again changes nothing. */
  lemma TrimIsStable(s: string)
    ensures Trim(Trim(s)) == Trim(s)
  {
    var _ := LeftPart(s, IsSpace);
    var t, u := TrimLeft(s, IsSpace), Trim(s);
    var right := RightPart(t, IsSpace);
    RightEdge(t, IsSpace);
    if u != "" {
      assert u[0] == t[0];
      TrimsBack("", u, "", IsSpace);
      assert "" + u + "" == u;
    }
  }

  /** A text that begins with ink is not blank. */
  lemma InkStays(s: string)
    requires s != "" && !IsSpace(s[0])
    ensures Trim(s) != ""
  {
    var left, right := TrimParts(s, IsSpace);
    assert Trim(s) == "" ==> s == left + right;
  }

  /** A text is blank exactly when it is nothing but space. */
  lemma InkShows(s: string)
    ensures Trim(s) != "" <==> exists k :: 0 <= k < |s| && !IsSpace(s[k])
  {
    var left := LeftPart(s, IsSpace);
    var t := TrimLeft(s, IsSpace);
    var right := RightPart(t, IsSpace);
    if Trim(s) == "" {
      assert s == left + right;
    } else {
      assert t[0] == Trim(s)[0] && s[|left|] == t[0];
    }
  }
}
