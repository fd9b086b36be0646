/** Option values, and facts about sequences: repetition, walks, subsequences and interleavings. */
module Basics {

  datatype Option<+T> = None | Some(value: T)

  ghost predicate Distinct<T(!new)>(xs: seq<T>) {
    forall i, j :: 0 <= i < j < |xs| ==> xs[i] != xs[j]
  }

  /** Pigeonhole: a sequence without repetition is no longer than a set holding its elements. */
  lemma {:induction false} DistinctFits<T(!new)>(xs: seq<T>, s: set<T>)
    requires Distinct(xs)
    requires forall i :: 0 <= i < |xs| ==> xs[i] in s
    ensures |xs| <= |s|
    decreases |xs|
  {
    if |xs| > 0 {
      var last := xs[|xs| - 1];
      DistinctFits(xs[..|xs| - 1], s - {last});
    }
  }

  type Edges = set<(string, string)>

  /** A walk: every name is joined to the next one by an edge. */
  ghost predicate Walk(edges: Edges, xs: seq<string>) {
    forall i :: 0 < i < |xs| ==> (xs[i - 1], xs[i]) in edges
  }

  /** No walk with at least one hop returns to where it started. */
  ghost predicate Acyclic(edges: Edges) {
    forall xs :: |xs| >= 2 && Walk(edges, xs) ==> xs[0] != xs[|xs| - 1]
  }

  lemma AcyclicWalkIsDistinct(edges: Edges, xs: seq<string>)
    requires Acyclic(edges) && Walk(edges, xs)
    ensures Distinct(xs)
  {
    forall i, j | 0 <= i < j < |xs|
      ensures xs[i] != xs[j]
    {
      var loop := xs[i..j + 1];
      assert Walk(edges, loop);
      assert loop[0] == xs[i] && loop[|loop| - 1] == xs[j];
    }
  }

  // ---------------------------------------------------------------- subsequences and interleavings

  /** `few` is `many` with some elements left out. */
  ghost predicate Subsequence<T(!new)>(few: seq<T>, many: seq<T>)
    decreases |many|
  {
    if |many| == 0 then few == []
    else
      var before, last := many[..|many| - 1], many[|many| - 1];
      || Subsequence(few, before)
      || (|few| > 0 && few[|few| - 1] == last && Subsequence(few[..|few| - 1], before))
  }

  lemma {:induction false} SubsequenceIsReflexive<T(!new)>(xs: seq<T>)
    ensures Subsequence(xs, xs)
    decreases |xs|
  {
    if |xs| > 0 { SubsequenceIsReflexive(xs[..|xs| - 1]); }
  }

  lemma {:induction false} SubsequenceSnoc<T(!new)>(few: seq<T>, many: seq<T>, x: T)
    requires Subsequence(few, many)
    ensures Subsequence(few, many + [x])
    ensures Subsequence(few + [x], many + [x])
  {
    assert (many + [x])[..|many|] == many && (few + [x])[..|few|] == few;
  }

  lemma {:induction false} SubsequenceIsTransitive<T(!new)>(a: seq<T>, b: seq<T>, z: seq<T>)
    requires Subsequence(a, b) && Subsequence(b, z)
    ensures Subsequence(a, z)
    decreases |z|
  {
    if |z| == 0 {
    } else if Subsequence(b, z[..|z| - 1]) {
      SubsequenceIsTransitive(a, b, z[..|z| - 1]);
    } else if Subsequence(a, b[..|b| - 1]) {
      SubsequenceIsTransitive(a, b[..|b| - 1], z[..|z| - 1]);
    } else {
      SubsequenceIsTransitive(a[..|a| - 1], b[..|b| - 1], z[..|z| - 1]);
    }
  }

  /** `whole` is an interleaving of the parts: each element of it is the next one of exactly one part. */
  ghost predicate Interleaves<T(!new)>(parts: seq<seq<T>>, whole: seq<T>)
    decreases |whole|
  {
    if |whole| == 0 then forall i :: 0 <= i < |parts| ==> parts[i] == []
    else exists i :: LastIsFrom(parts, whole, i)
                     && Interleaves(parts[i := parts[i][..|parts[i]| - 1]], whole[..|whole| - 1])
  }

  ghost predicate LastIsFrom<T(!new)>(parts: seq<seq<T>>, whole: seq<T>, i: int) {
    && 0 <= i < |parts| && |parts[i]| > 0 && |whole| > 0
    && parts[i][|parts[i]| - 1] == whole[|whole| - 1]
  }

  lemma {:induction false} InterleaveSnoc<T(!new)>(parts: seq<seq<T>>, whole: seq<T>, i: nat, s: T)
    requires i < |parts| && Interleaves(parts, whole)
    ensures Interleaves(parts[i := parts[i] + [s]], whole + [s])
  {
    var parts', whole' := parts[i := parts[i] + [s]], whole + [s];
    assert LastIsFrom(parts', whole', i);
    assert (parts[i] + [s])[..|parts[i]|] == parts[i];
    assert parts'[i := parts'[i][..|parts'[i]| - 1]] == parts;
    assert whole'[..|whole'| - 1] == whole;
  }
}
