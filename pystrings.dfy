/** Python's `str.split(sep)` and `sep.join(parts)` for a non-empty separator,
    with the facts about them that the link parsing and the header
    flattening rely on. */
module PyStrings {
  import opened Outcomes

  /** `sep` occurs in `s` starting at index `i`. */
  predicate OccursAt(s: string, sep: string, i: nat)
  {
    i + |sep| <= |s| && s[i..i + |sep|] == sep
  }

  /** `sep in s`, Python's substring test. */
  predicate Contains(s: string, sep: string)
  {
    exists i: nat :: i <= |s| && OccursAt(s, sep, i)
  }

  /** The first index at or after `from` where `sep` occurs (Python's `s.find(sep, from)`,
      with None in place of -1). */
  function FirstIndex(s: string, sep: string, from: nat): (r: Option<nat>)
    requires |sep| > 0
    ensures r.None? ==> forall j: nat :: from <= j ==> !OccursAt(s, sep, j)
    ensures r.Some? ==> from <= r.value && OccursAt(s, sep, r.value)
    ensures r.Some? ==> forall j: nat :: from <= j < r.value ==> !OccursAt(s, sep, j)
    decreases |s| - from
  {
    if from + |sep| > |s| then None
    else if s[from..from + |sep|] == sep then Some(from)
    else FirstIndex(s, sep, from + 1)
  }

  /** Python's `s.split(sep)`: the pieces between the non-overlapping occurrences
      of `sep`, found left to right. */
  function Split(s: string, sep: string): (parts: seq<string>)
    requires |sep| > 0
    ensures |parts| >= 1
    decreases |s|
  {
    match FirstIndex(s, sep, 0)
    case None => [s]
    case Some(i) => [s[..i]] + Split(s[i + |sep|..], sep)
  }

  /** Python's `sep.join(parts)`. */
  function Join(parts: seq<string>, sep: string): string
  {
    if |parts| == 0 then ""
    else if |parts| == 1 then parts[0]
    else parts[0] + sep + Join(parts[1..], sep)
  }

  /** A one-character separator occurs exactly where that character is. */
  lemma CharOccursAt(s: string, c: char, j: nat)
    ensures OccursAt(s, [c], j) <==> j < |s| && s[j] == c
  {
    if j < |s| {
      assert s[j..j + 1] == [s[j]];
    }
  }

  /** A one-character separator occurs in `s` exactly when the character does. */
  lemma ContainsChar(s: string, c: char)
    ensures Contains(s, [c]) <==> c in s
  {
    if Contains(s, [c]) {
      var j: nat :| j <= |s| && OccursAt(s, [c], j);
      CharOccursAt(s, c, j);
    }
    if c in s {
      var j :| 0 <= j < |s| && s[j] == c;
      CharOccursAt(s, c, j);
    }
  }

  lemma OccursInPrefix(s: string, sep: string, k: nat, j: nat)
    requires k <= |s|
    ensures OccursAt(s[..k], sep, j) <==> j + |sep| <= k && OccursAt(s, sep, j)
  {
    if j + |sep| <= k {
      assert s[..k][j..j + |sep|] == s[j..j + |sep|];
    }
  }

  lemma OccursInSuffix(s: string, sep: string, k: nat, j: nat)
    requires k <= |s|
    ensures OccursAt(s[k..], sep, j) <==> OccursAt(s, sep, k + j)
  {
    if k + j + |sep| <= |s| {
      assert s[k..][j..j + |sep|] == s[k + j..k + j + |sep|];
    }
  }

  /** The first piece of a split is the text before the first occurrence of the
      separator, or the whole string when it does not occur. */
  lemma SplitHead(s: string, sep: string)
    requires |sep| > 0
    ensures var p := Split(s, sep)[0];
      |p| <= |s| && s[..|p|] == p &&
      (forall j: nat :: j < |p| ==> !OccursAt(s, sep, j)) &&
      (|p| == |s| || OccursAt(s, sep, |p|))
  {
  }

  /** A split has a second piece exactly when the separator occurs, and that piece
      starts right after the first occurrence. */
  lemma SplitSecond(s: string, sep: string)
    requires |sep| > 0
    ensures |Split(s, sep)| >= 2 <==> Contains(s, sep)
    ensures Contains(s, sep) ==>
      FirstIndex(s, sep, 0).Some? &&
      Split(s, sep)[1] == Split(s[FirstIndex(s, sep, 0).value + |sep|..], sep)[0]
  {
    match FirstIndex(s, sep, 0)
    case None =>
    case Some(i) =>
      assert OccursAt(s, sep, i);
  }

  /** No piece of a split contains the separator. */
  lemma {:induction false} SplitPiecesFree(s: string, sep: string)
    requires |sep| > 0
    ensures forall k :: 0 <= k < |Split(s, sep)| ==> !Contains(Split(s, sep)[k], sep)
    decreases |s|
  {
    match FirstIndex(s, sep, 0)
    case None =>
      assert Split(s, sep) == [s];
    case Some(i) =>
      var rest := s[i + |sep|..];
      SplitPiecesFree(rest, sep);
      assert Split(s, sep) == [s[..i]] + Split(rest, sep);
      if Contains(s[..i], sep) {
        var j: nat :| OccursAt(s[..i], sep, j);
        OccursInPrefix(s, sep, i, j);
        assert false;
      }
  }

  lemma JoinCons(p: string, ps: seq<string>, sep: string)
    requires |ps| >= 1
    ensures Join([p] + ps, sep) == p + sep + Join(ps, sep)
  {
    assert ([p] + ps)[1..] == ps;
  }

  /** Joining the pieces of a split with the same separator gives back the string. */
  lemma {:induction false} JoinSplit(s: string, sep: string)
    requires |sep| > 0
    ensures Join(Split(s, sep), sep) == s
    decreases |s|
  {
    match FirstIndex(s, sep, 0)
    case None =>
      assert Split(s, sep) == [s];
    case Some(i) =>
      var rest := s[i + |sep|..];
      JoinSplit(rest, sep);
      var tail := Split(rest, sep);
      SplitAt(s, sep, i);
      JoinCons(s[..i], tail, sep);
      SliceThree(s, i, i + |sep|);
  }

  lemma SliceThree(s: string, i: nat, j: nat)
    requires i <= j <= |s|
    ensures s == s[..i] + s[i..j] + s[j..]
  {
  }

  /** A split where the first occurrence of the separator is at `i`. */
  lemma SplitAt(s: string, sep: string, i: nat)
    requires |sep| > 0 && OccursAt(s, sep, i)
    requires forall j: nat :: j < i ==> !OccursAt(s, sep, j)
    ensures Split(s, sep) == [s[..i]] + Split(s[i + |sep|..], sep)
  {
    var r := FirstIndex(s, sep, 0);
    assert r.Some? && r.value == i;
  }

  /** Splitting on a one-character separator undoes joining pieces that do not
      contain it. */
  lemma {:induction false} SplitJoin(parts: seq<string>, sep: string)
    requires |sep| == 1 && |parts| >= 1
    requires forall k :: 0 <= k < |parts| ==> !Contains(parts[k], sep)
    ensures Split(Join(parts, sep), sep) == parts
    decreases |parts|
  {
    var p := parts[0];
    if |parts| == 1 {
      assert Join(parts, sep) == p;
      assert FirstIndex(p, sep, 0).None?;
    } else {
      var tail := Join(parts[1..], sep);
      var s := p + sep + tail;
      assert Join(parts, sep) == s;
      assert s[..|p|] == p;
      assert s[|p|..|p| + 1] == sep;
      forall j: nat | j < |p|
        ensures !OccursAt(s, sep, j)
      {
        OccursInPrefix(s, sep, |p|, j);
        assert !OccursAt(p, sep, j);
      }
      SplitAt(s, sep, |p|);
      assert s[|p| + 1..] == tail;
      SplitJoin(parts[1..], sep);
    }
  }
}
