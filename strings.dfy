/** The part of Go's `strings` package that the container handler uses:
    `strings.Index` and `strings.Split` with a non-empty separator. */
module Strings {
  import opened Wrappers

  /** `sep` occurs in `s` starting at index `i`. */
  predicate OccursAt(s: string, sep: string, i: nat)
  {
    i + |sep| <= |s| && s[i..i + |sep|] == sep
  }

  /** `sep` occurs nowhere in `s`. */
  ghost predicate Free(s: string, sep: string)
  {
    forall j: nat :: !OccursAt(s, sep, j)
  }

  /** The first occurrence of `sep` in `s` at or after `from`
      (`strings.Index(s[from:], sep)` shifted by `from`). */
  function IndexFrom(s: string, sep: string, from: nat): (r: Option<nat>)
    requires sep != "" && from <= |s|
    ensures r.Some? ==> from <= r.value && OccursAt(s, sep, r.value)
    ensures r.Some? ==> forall j: nat :: from <= j < r.value ==> !OccursAt(s, sep, j)
    ensures r.None? ==> forall j: nat :: from <= j ==> !OccursAt(s, sep, j)
    decreases |s| - from
  {
    if OccursAt(s, sep, from) then Some(from)
    else if from == |s| then None
    else IndexFrom(s, sep, from + 1)
  }

  /** `IndexFrom` finds the first occurrence at or after `from`. */
  lemma {:induction false} IndexFromFindsFirst(s: string, sep: string, from: nat, p: nat)
    requires sep != "" && from <= p && OccursAt(s, sep, p)
    requires forall j: nat :: from <= j < p ==> !OccursAt(s, sep, j)
    ensures IndexFrom(s, sep, from) == Some(p)
    decreases p - from
  {
    if from < p {
      IndexFromFindsFirst(s, sep, from + 1, p);
    }
  }

  /** `strings.Split(s, sep)`: the pieces between the occurrences of `sep`,
      found left to right without overlap. */
  function Split(s: string, sep: string): (parts: seq<string>)
    requires sep != ""
    ensures |parts| >= 1
    decreases |s|
  {
    match IndexFrom(s, sep, 0)
    case None => [s]
    case Some(i) => [s[..i]] + Split(s[i + |sep|..], sep)
  }

  /** `strings.Join(parts, sep)`. */
  function Join(parts: seq<string>, sep: string): string
    requires |parts| >= 1
  {
    if |parts| == 1 then parts[0] else parts[0] + sep + Join(parts[1..], sep)
  }

  /** Splitting loses nothing: joining the pieces back gives the input. */
  lemma {:induction false} SplitJoin(s: string, sep: string)
    requires sep != ""
    ensures Join(Split(s, sep), sep) == s
    decreases |s|
  {
    var idx := IndexFrom(s, sep, 0);
    if idx.Some? {
      var i := idx.value;
      var rest := s[i + |sep|..];
      var tail := Split(rest, sep);
      SplitJoin(rest, sep);
      assert Split(s, sep) == [s[..i]] + tail;
      JoinCons(s[..i], tail, sep);
      assert s[i..i + |sep|] == sep;
      assert s == s[..i] + s[i..i + |sep|] + rest;
    }
  }

  lemma JoinCons(head: string, tail: seq<string>, sep: string)
    requires |tail| >= 1
    ensures Join([head] + tail, sep) == head + sep + Join(tail, sep)
  {
    assert ([head] + tail)[1..] == tail;
  }

  /** A prefix that ends before the first occurrence holds no occurrence. */
  lemma PrefixBeforeFirstIsFree(s: string, sep: string, i: nat)
    requires sep != "" && i <= |s|
    requires forall j: nat :: j < i ==> !OccursAt(s, sep, j)
    ensures Free(s[..i], sep)
  {
    forall j: nat | OccursAt(s[..i], sep, j)
      ensures false
    {
      assert s[..i][j..j + |sep|] == s[j..j + |sep|];
      assert OccursAt(s, sep, j);
    }
  }

  /** No piece of a split contains the separator. */
  lemma {:induction false} SplitPiecesFree(s: string, sep: string)
    requires sep != ""
    ensures forall k :: 0 <= k < |Split(s, sep)| ==> Free(Split(s, sep)[k], sep)
    decreases |s|
  {
    match IndexFrom(s, sep, 0)
    case None =>
      assert Split(s, sep) == [s];
    case Some(i) =>
      var rest := s[i + |sep|..];
      SplitPiecesFree(rest, sep);
      PrefixBeforeFirstIsFree(s, sep, i);
      var parts := Split(s, sep);
      assert parts == [s[..i]] + Split(rest, sep);
      forall k | 0 <= k < |parts|
        ensures Free(parts[k], sep)
      {
        if k > 0 {
          assert parts[k] == Split(rest, sep)[k - 1];
        }
      }
  }

  /** The first piece is the text before the first occurrence, and the second
      piece (when there is one) starts right after it. */
  lemma SplitFirstPieces(s: string, sep: string)
    requires sep != ""
    ensures IndexFrom(s, sep, 0).None? ==> Split(s, sep) == [s]
    ensures IndexFrom(s, sep, 0).Some? ==>
      var i := IndexFrom(s, sep, 0).value;
      && |Split(s, sep)| >= 2
      && Split(s, sep)[0] == s[..i]
      && Split(s, sep)[1] <= s[i + |sep|..]
  {
    match IndexFrom(s, sep, 0)
    case None =>
    case Some(i) =>
      var rest := s[i + |sep|..];
      match IndexFrom(rest, sep, 0)
      case None =>
      case Some(i') =>
        assert Split(rest, sep)[0] == rest[..i'];
  }
}
