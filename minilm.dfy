// The placeholder MiniLM embeddings service
// (backend/internal/minilm/embeddings.go): a ready flag and a status string
// updated by Initialize and Shutdown, placeholder embeddings, a similarity
// score and the shared ranking.
module MiniLM {
  import opened Wrappers
  import opened Text
  import opened Search

  datatype Config = Config(modelPath: string, dimension: nat)

  /** The placeholder vector: component i is i * 0.1. */
  function Placeholder(dimension: nat): (v: seq<real>)
    ensures |v| == dimension && forall i :: 0 <= i < dimension ==> v[i] == i as real * 0.1
  {
    seq(dimension, i => i as real * 0.1)
  }

  /** The first empty text of a batch. */
  function FirstEmpty(texts: seq<string>): (r: Option<nat>)
    ensures r.None? <==> forall i :: 0 <= i < |texts| ==> texts[i] != []
    ensures r.Some? ==> (r.value < |texts| && texts[r.value] == []
      && forall i :: 0 <= i < r.value ==> texts[i] != [])
    decreases |texts|
  {
    if texts == [] then None
    else if texts[0] == [] then Some(0)
    else match FirstEmpty(texts[1..])
      case None => None
      case Some(i) => Some(i + 1)
  }

  const NotReady := "embeddings service is not ready"
  const EmptyText := "text cannot be empty"
  const NoTexts := "texts cannot be empty"

  function TextError(i: nat): string {
    "failed to generate embedding for text " + NatToString(i) + ": " + EmptyText
  }

  /** The score of embeddings.go: the dot product divided by the product of
      the two SQUARED magnitudes (no square root), or 0 when either vector has
      zero magnitude. */
  function Similarity(a: seq<real>, b: seq<real>): real
    requires |a| == |b|
  {
    var m1 := DotSpec(a, a);
    var m2 := DotSpec(b, b);
    if m1 == 0.0 || m2 == 0.0 then 0.0 else DotSpec(a, b) / (m1 * m2)
  }

  /** The score is symmetric. */
  lemma SimilaritySymmetric(a: seq<real>, b: seq<real>)
    requires |a| == |b|
    ensures Similarity(a, b) == Similarity(b, a)
  {
    DotSymmetric(a, b);
    assert DotSpec(a, a) * DotSpec(b, b) == DotSpec(b, b) * DotSpec(a, a);
  }

  /** Because the magnitudes are squared and not square-rooted, a non-zero
      vector does not score 1 against itself (as a cosine would) but the
      inverse of its squared length; [2.0] scores 0.25 against itself. */
  lemma SelfSimilarity(a: seq<real>)
    requires DotSpec(a, a) != 0.0
    ensures Similarity(a, a) == 1.0 / DotSpec(a, a)
    ensures Similarity([2.0], [2.0]) == 0.25
  {
    var m := DotSpec(a, a);
    assert m / (m * m) == 1.0 / m;
    assert DotSpec([2.0], [2.0]) == 4.0 by {
      assert [2.0][..0] == [];
    }
  }

  class EmbeddingService {
    var ready: bool
    var status: string
    const config: Config

    /** NewEmbeddingService: not ready, status "initializing". */
    constructor (config: Config)
      ensures !ready && status == "initializing" && this.config == config
    {
      this.config := config;
      ready := false;
      status := "initializing";
    }

    predicate IsReady()
      reads this
    {
      ready
    }

    /** Initialize always succeeds: ready, status "ready". */
    method Initialize() returns (err: Option<string>)
      modifies this
      ensures ready && status == "ready" && err == None
    {
      ready := true;
      status := "ready";
      return None;
    }

    /** Shutdown: not ready, status "stopped". */
    method Shutdown() returns (err: Option<string>)
      modifies this
      ensures !ready && status == "stopped" && err == None
    {
      ready := false;
      status := "stopped";
      return None;
    }

    /** GenerateEmbedding: fails when not ready or for an empty text;
      otherwise a placeholder vector of exactly config.dimension values. */
    method GenerateEmbedding(text: string) returns (r: Result<seq<real>>)
      ensures !ready ==> r == Failure(NotReady)
      ensures ready && text == [] ==> r == Failure(EmptyText)
      ensures ready && text != [] ==> r.Success? && |r.value| == config.dimension && r.value == Placeholder(config.dimension)
    {
      if !ready {
        return Failure(NotReady);
      }
      if text == [] {
        return Failure(EmptyText);
      }
      var e := new real[config.dimension](_ => 0.0);
      var i := 0;
      while i < e.Length
        invariant 0 <= i <= e.Length
        invariant forall k :: 0 <= k < i ==> e[k] == k as real * 0.1
      {
        e[i] := i as real * 0.1;
        i := i + 1;
      }
      return Success(e[..]);
    }

    /** GenerateEmbeddings: fails when not ready or for an empty list; one
      empty text fails the whole batch with an error naming its index;
      otherwise one embedding per text, in order. */
    method GenerateEmbeddings(texts: seq<string>) returns (r: Result<seq<seq<real>>>)
      ensures !ready ==> r == Failure(NotReady)
      ensures ready && texts == [] ==> r == Failure(NoTexts)
      ensures ready && texts != [] && FirstEmpty(texts).Some? ==> r == Failure(TextError(FirstEmpty(texts).value))
      ensures ready && texts != [] && FirstEmpty(texts).None? ==>
        r.Success? && |r.value| == |texts| && forall i :: 0 <= i < |texts| ==> r.value[i] == Placeholder(config.dimension)
    {
      if !ready {
        return Failure(NotReady);
      }
      if |texts| == 0 {
        return Failure(NoTexts);
      }
      var out: seq<seq<real>> := [];
      var i := 0;
      while i < |texts|
        invariant 0 <= i <= |texts|
        invariant forall j :: 0 <= j < i ==> texts[j] != []
        invariant |out| == i && forall j :: 0 <= j < i ==> out[j] == Placeholder(config.dimension)
      {
        var e := GenerateEmbedding(texts[i]);
        if e.Failure? {
          assert FirstEmpty(texts) == Some(i);
          return Failure(TextError(i));
        }
        out := out + [e.value];
        i := i + 1;
      }
      return Success(out);
    }

    /** ComputeSimilarity: rejects different or zero lengths, then the dot
      loop and the magnitude loop. */
    method ComputeSimilarity(a: seq<real>, b: seq<real>) returns (r: Result<real>)
      ensures |a| != |b| ==> r == Failure(DimensionMismatch)
      ensures |a| == |b| && a == [] ==> r == Failure(EmptyEmbedding)
      ensures |a| == |b| && a != [] ==> r == Success(Similarity(a, b))
    {
      if |a| != |b| {
        return Failure(DimensionMismatch);
      }
      if |a| == 0 {
        return Failure(EmptyEmbedding);
      }
      var dot := Dot(a, b);
      var m1, m2 := 0.0, 0.0;
      var i := 0;
      while i < |a|
        invariant 0 <= i <= |a|
        invariant m1 == DotSpec(a[..i], a[..i]) && m2 == DotSpec(b[..i], b[..i])
      {
        DotSnoc(a, a, i);
        DotSnoc(b, b, i);
        m1 := m1 + a[i] * a[i];
        m2 := m2 + b[i] * b[i];
        i := i + 1;
      }
      assert a[..i] == a && b[..i] == b;
      assert m1 == DotSpec(a, a) && m2 == DotSpec(b, b);
      if m1 == 0.0 || m2 == 0.0 {
        return Success(0.0);
      }
      assert Similarity(a, b) == dot / (m1 * m2);
      return Success(dot / (m1 * m2));
    }

    /** SearchSimilar: the same validation, ranking and top-K cut as the
      ONNX service, scored by `Similarity`. */
    method SearchSimilar(query: seq<real>, cands: seq<seq<real>>, topK: int) returns (r: Result<Ranking>)
      ensures FirstMismatch(query, cands).None? ==>
        SearchOutcome(query, cands, topK, SimilarityScores(query, cands), r)
      ensures FirstMismatch(query, cands).Some? ==>
        SearchOutcome(query, cands, topK, [], r)
    {
      if |query| == 0 {
        return Failure(EmptyQuery);
      }
      if |cands| == 0 {
        return Failure(EmptyCandidates);
      }
      var k := EffectiveTopK(topK);
      var scores: seq<real> := [];
      var i := 0;
      while i < |cands|
        invariant 0 <= i <= |cands|
        invariant forall j :: 0 <= j < i ==> |cands[j]| == |query|
        invariant |scores| == i && forall j :: 0 <= j < i ==> scores[j] == Similarity(query, cands[j])
      {
        var sim := ComputeSimilarity(query, cands[i]);
        if sim.Failure? {
          assert FirstMismatch(query, cands) == Some(i);
          return Failure(CandidateError(i, sim.error));
        }
        scores := scores + [sim.value];
        i := i + 1;
      }
      assert scores == SimilarityScores(query, cands);
      var indices, sims := Rank(scores, k);
      return Success(Ranking(indices, sims));
    }
  }

  /** The `Similarity` score of every candidate. */
  function SimilarityScores(query: seq<real>, cands: seq<seq<real>>): (r: seq<real>)
    requires forall i :: 0 <= i < |cands| ==> |cands[i]| == |query|
    ensures |r| == |cands| && forall i :: 0 <= i < |cands| ==> r[i] == Similarity(query, cands[i])
  {
    seq(|cands|, i requires 0 <= i < |cands| => Similarity(query, cands[i]))
  }
}
