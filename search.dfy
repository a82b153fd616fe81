// Similarity search shared by the two Go embedding services
// (backend/internal/minilm/onnx_embeddings.go and embeddings.go): the dot
// product loop and the in-place exchange sort of two parallel slices that
// ranks candidates by descending similarity, followed by the top-K cut.
// Scores are exact reals; float32 rounding is not modelled.
module Search {
  import opened Wrappers
  import opened Text

  // ---------------------------------------------------------------- dot product

  /** The dot product of two vectors of equal length, summed left to right. */
  function DotSpec(a: seq<real>, b: seq<real>): real
    requires |a| == |b|
  {
    if a == [] then 0.0
    else DotSpec(a[..|a| - 1], b[..|b| - 1]) + a[|a| - 1] * b[|b| - 1]
  }

  /** The dot product does not depend on the order of its arguments. */
  lemma {:induction false} DotSymmetric(a: seq<real>, b: seq<real>)
    requires |a| == |b|
    ensures DotSpec(a, b) == DotSpec(b, a)
    decreases |a|
  {
    if a != [] { DotSymmetric(a[..|a| - 1], b[..|b| - 1]); }
  }

  /** The squared length of a vector is never negative. */
  lemma {:induction false} SquaredNormNonNegative(a: seq<real>)
    ensures DotSpec(a, a) >= 0.0
    decreases |a|
  {
    if a != [] { SquaredNormNonNegative(a[..|a| - 1]); }
  }

  /** One more term of the prefix sum. */
  lemma DotSnoc(a: seq<real>, b: seq<real>, i: nat)
    requires i < |a| == |b|
    ensures DotSpec(a[..i + 1], b[..i + 1]) == DotSpec(a[..i], b[..i]) + a[i] * b[i]
  {
    assert a[..i + 1][..i] == a[..i] && b[..i + 1][..i] == b[..i];
  }

  /** The accumulation loop `dot += a[i] * b[i]`. */
  method Dot(a: seq<real>, b: seq<real>) returns (d: real)
    requires |a| == |b|
    ensures d == DotSpec(a, b)
  {
    d := 0.0;
    var i := 0;
    while i < |a|
      invariant 0 <= i <= |a|
      invariant d == DotSpec(a[..i], b[..i])
    {
      DotSnoc(a, b, i);
      d := d + a[i] * b[i];
      i := i + 1;
    }
    assert a[..i] == a && b[..i] == b;
  }

  // ---------------------------------------------------------------- ranking

  predicate NonIncreasing(s: seq<real>) { forall a, b :: 0 <= a < b < |s| ==> s[a] >= s[b] }
  predicate Distinct(s: seq<int>) { forall a, b :: 0 <= a < b < |s| ==> s[a] != s[b] }

  /** `sims[k]` is the score of the candidate `idx[k]`. */
  predicate Paired(sims: seq<real>, idx: seq<int>, score: seq<real>)
  {
    |sims| == |idx| && forall k :: 0 <= k < |idx| ==> 0 <= idx[k] < |score| && sims[k] == score[idx[k]]
  }

  /** Every element before position i is at least every element after it. */
  predicate PrefixDominates(s: seq<real>, i: nat)
  {
    forall a, b :: 0 <= a < i && a < b < |s| ==> s[a] >= s[b]
  }

  lemma SwapKeepsDominance(s: seq<real>, i: nat, j: nat)
    requires i < j < |s| && PrefixDominates(s, i)
    ensures PrefixDominates(s[i := s[j]][j := s[i]], i)
  {
  }

  /** The Go sort: for each i, every later j whose similarity is larger is
      swapped into place i, in both slices at once. */
  method ExchangeSortDesc(sims: array<real>, idx: array<int>, ghost score: seq<real>)
    requires sims.Length == idx.Length
    requires Paired(sims[..], idx[..], score) && Distinct(idx[..])
    modifies sims, idx
    ensures NonIncreasing(sims[..])
    ensures Paired(sims[..], idx[..], score) && Distinct(idx[..])
    ensures multiset(idx[..]) == multiset(old(idx[..]))
  {
    var n := sims.Length;
    var i := 0;
    while i + 1 < n
      invariant 0 <= i <= n
      invariant n == 0 || i < n
      invariant PrefixDominates(sims[..], i)
      invariant Paired(sims[..], idx[..], score) && Distinct(idx[..])
      invariant multiset(idx[..]) == multiset(old(idx[..]))
    {
      SelectInto(sims, idx, i, score);
      i := i + 1;
    }
  }

  /** One pass of the outer loop: afterwards position i holds a largest
      similarity of positions i and later. */
  method SelectInto(sims: array<real>, idx: array<int>, i: nat, ghost score: seq<real>)
    requires sims.Length == idx.Length && i < sims.Length
    requires PrefixDominates(sims[..], i)
    requires Paired(sims[..], idx[..], score) && Distinct(idx[..])
    modifies sims, idx
    ensures PrefixDominates(sims[..], i + 1)
    ensures Paired(sims[..], idx[..], score) && Distinct(idx[..])
    ensures multiset(idx[..]) == multiset(old(idx[..]))
  {
    var n := sims.Length;
    var j := i + 1;
    while j < n
      invariant i < j <= n
      invariant PrefixDominates(sims[..], i)
      invariant forall b :: i < b < j ==> sims[i] >= sims[b]
      invariant Paired(sims[..], idx[..], score) && Distinct(idx[..])
      invariant multiset(idx[..]) == multiset(old(idx[..]))
    {
      if sims[i] < sims[j] {
        SwapKeepsDominance(sims[..], i, j);
        SwapBoth(sims, idx, i, j, score);
      }
      j := j + 1;
    }
  }

  /** Swaps positions i and j of both slices. */
  method SwapBoth(sims: array<real>, idx: array<int>, i: nat, j: nat, ghost score: seq<real>)
    requires sims.Length == idx.Length && i < j < sims.Length
    requires Paired(sims[..], idx[..], score) && Distinct(idx[..])
    modifies sims, idx
    ensures sims[..] == old(sims[..])[i := old(sims[j])][j := old(sims[i])]
    ensures idx[..] == old(idx[..])[i := old(idx[j])][j := old(idx[i])]
    ensures Paired(sims[..], idx[..], score) && Distinct(idx[..])
    ensures multiset(idx[..]) == multiset(old(idx[..]))
  {
    sims[i], sims[j] := sims[j], sims[i];
    idx[i], idx[j] := idx[j], idx[i];
  }

  function Min(a: int, b: int): int { if a <= b then a else b }

  /** The candidates 0 .. n-1 in order. */
  function Range(n: nat): (r: seq<int>)
    ensures |r| == n && forall k :: 0 <= k < n ==> r[k] == k
  {
    seq(n, k => k)
  }

  /** The ranking that SearchSimilar returns: the k best candidates. */
  predicate TopKOf(indices: seq<int>, sims: seq<real>, scores: seq<real>, k: nat)
  {
    |indices| == Min(k, |scores|)
    && NonIncreasing(sims)
    && Distinct(indices)
    && Paired(sims, indices, scores)
    && forall j, p :: 0 <= j < |scores| && j !in indices && 0 <= p < |sims| ==> scores[j] <= sims[p]
  }

  /** Sorts all candidates by descending score, keeping each score paired
      with its index, and keeps the first `k`. */
  method Rank(scores: seq<real>, k: nat) returns (indices: seq<int>, sims: seq<real>)
    ensures TopKOf(indices, sims, scores, k)
  {
    var n := |scores|;
    var s := new real[n](i requires 0 <= i < n => scores[i]);
    var idx := new int[n](i => i);
    assert idx[..] == Range(n);
    ExchangeSortDesc(s, idx, scores);
    var m := Min(k, n);
    indices, sims := idx[..m], s[..m];
    ExcludedAreNotBetter(scores, idx[..], s[..], m);
  }

  /** After sorting a permutation of all candidates, a candidate cut off by
      the top-m prefix scores no more than any kept one. */
  lemma ExcludedAreNotBetter(scores: seq<real>, idx: seq<int>, s: seq<real>, m: nat)
    requires |idx| == |scores| && m <= |idx|
    requires multiset(idx) == multiset(Range(|scores|))
    requires Paired(s, idx, scores) && NonIncreasing(s)
    ensures forall j, p :: 0 <= j < |scores| && j !in idx[..m] && 0 <= p < m ==> scores[j] <= s[p]
  {
    var n := |scores|;
    forall j, p | 0 <= j < n && j !in idx[..m] && 0 <= p < m
      ensures scores[j] <= s[p]
    {
      assert Range(n)[j] == j;
      assert j in multiset(Range(n));
      assert j in idx;
      var q :| 0 <= q < n && idx[q] == j;
      assert forall t :: 0 <= t < m ==> idx[..m][t] == idx[t];
      assert q >= m;
      assert s[q] == scores[j];
    }
  }

  // ---------------------------------------------------------------- SearchSimilar

  /** The outcome of a successful search: candidate indices and their
      similarities, best first. */
  datatype Ranking = Ranking(indices: seq<int>, sims: seq<real>)

  /** A `topK` of zero or less means 5. */
  function EffectiveTopK(topK: int): (k: nat)
    ensures topK <= 0 ==> k == 5
    ensures topK > 0 ==> k == topK
  {
    if topK <= 0 then 5 else topK
  }

  /** The first candidate whose length differs from the query's. */
  function FirstMismatch(query: seq<real>, cands: seq<seq<real>>): (r: Option<nat>)
    ensures r.None? <==> forall i :: 0 <= i < |cands| ==> |cands[i]| == |query|
    ensures r.Some? ==> (r.value < |cands| && |cands[r.value]| != |query|
      && forall i :: 0 <= i < r.value ==> |cands[i]| == |query|)
    decreases |cands|
  {
    if cands == [] then None
    else if |cands[0]| != |query| then Some(0)
    else match FirstMismatch(query, cands[1..])
      case None => None
      case Some(i) => Some(i + 1)
  }

  const EmptyQuery := "query embedding cannot be empty"
  const EmptyCandidates := "candidate embeddings cannot be empty"
  const DimensionMismatch := "embeddings must have the same dimension"
  const EmptyEmbedding := "embeddings cannot be empty"

  /** The error wrapped around a failed candidate, naming its index. */
  function CandidateError(i: nat, cause: string): string
  {
    "failed to compute similarity for candidate " + NatToString(i) + ": " + cause
  }

  /** What SearchSimilar returns in both Go services, given the score of
      every candidate under the service's own similarity. */
  predicate SearchOutcome(query: seq<real>, cands: seq<seq<real>>, topK: int,
                          scores: seq<real>, r: Result<Ranking>)
  {
    if query == [] then r == Failure(EmptyQuery)
    else if cands == [] then r == Failure(EmptyCandidates)
    else match FirstMismatch(query, cands)
      case Some(i) => r == Failure(CandidateError(i, DimensionMismatch))
      case None => r.Success? && TopKOf(r.value.indices, r.value.sims, scores, EffectiveTopK(topK))
  }
}
