// The sentence-transformers embeddings service of the Python backend
// (python/services/embeddings.py): its lifecycle, the text cleaning in front
// of the encoder, the filtering of blank texts and the ranking of candidates
// by similarity. The encoder and the cosine similarity are parameters.
module PyEmbeddings {
  import opened Wrappers
  import opened Text
  import Search

  // ---------------------------------------------------------------- model and host

  /** What a constructed SentenceTransformer reports: its embedding size and,
      when the attribute exists, its max_seq_length. */
  datatype SentenceModel = SentenceModel(dimension: int, maxSeqLength: Option<nat>)

  /** What torch reports when the device is probed, or that probing raised. */
  datatype TorchProbe = Probed(cuda: bool, mps: bool) | ProbeFailed

  /** The world that `initialize` meets: whether sentence-transformers could
      be imported, the device probe, and the model construction (None when
      it raises). */
  datatype EmbHost = EmbHost(available: bool, probe: TorchProbe, created: Option<SentenceModel>)

  /** _determine_device: a setting other than "auto" is used as it is;
      "auto" asks torch for CUDA, then for Apple's MPS, and falls back to the
      CPU, also when probing raises. */
  function DetermineDevice(setting: string, probe: TorchProbe): (d: string)
    ensures setting != "auto" ==> d == setting
    ensures setting == "auto" ==> (d == "cuda" <==> probe.Probed? && probe.cuda)
    ensures setting == "auto" ==> (d == "mps" <==> probe.Probed? && !probe.cuda && probe.mps)
    ensures setting == "auto" ==> d in {"cuda", "mps", "cpu"}
  {
    if setting != "auto" then setting
    else match probe
      case ProbeFailed => "cpu"
      case Probed(cuda, mps) => if cuda then "cuda" else if mps then "mps" else "cpu"
  }

  /** `getattr(model, 'max_seq_length', 512)`. */
  function SeqLength(m: SentenceModel): nat {
    if m.maxSeqLength.Some? then m.maxSeqLength.value else 512
  }

  // ---------------------------------------------------------------- text cleaning

  /** The character budget: four characters per token of the model's
      sequence length, or 2000 when that is unknown or zero. */
  function MaxChars(maxSeqLength: Option<nat>): (m: nat)
    ensures m >= 4
    ensures maxSeqLength.None? || maxSeqLength == Some(0) ==> m == 2000
    ensures maxSeqLength.Some? && maxSeqLength.value > 0 ==> m == 4 * maxSeqLength.value
  {
    if maxSeqLength.Some? && maxSeqLength.value != 0 then 4 * maxSeqLength.value else 2000
  }

  /** _clean_text: strip, collapse whitespace runs, and cut a text above the
      budget to the budget followed by "...". */
  function CleanText(text: string, maxSeqLength: Option<nat>): string {
    var n := Normalize(text);
    var m := MaxChars(maxSeqLength);
    if |n| > m then n[..m] + "..." else n
  }

  /** A cleaned text is the normalized text when that fits the budget, and
      otherwise its first `MaxChars` characters and "...": it never exceeds
      the budget by more than the three dots. */
  lemma CleanTextShape(text: string, maxSeqLength: Option<nat>)
    ensures var r := CleanText(text, maxSeqLength); var n := Normalize(text); var m := MaxChars(maxSeqLength);
      |r| <= m + 3
      && (|n| <= m ==> r == n)
      && (|n| > m ==> |r| == m + 3 && HasPrefix(r, n[..m]) && HasSuffix(r, "..."))
  {
    var r, n, m := CleanText(text, maxSeqLength), Normalize(text), MaxChars(maxSeqLength);
    if |n| > m {
      assert r[..m] == n[..m];
      assert r[|r| - 3..] == "...";
    }
  }

  /** A cleaned text is normalized: stripped, with single spaces only. */
  lemma CleanTextNormalized(text: string, maxSeqLength: Option<nat>)
    ensures Normalized(CleanText(text, maxSeqLength))
  {
    var n, m := Normalize(text), MaxChars(maxSeqLength);
    if |n| > m {
      var p := n[..m];
      CollapsedPrefix(n, m);
      assert p[0] == n[0];
      NormalizedExtend(p, "...");
    }
  }

  /** A cleaned text is blank exactly when the input is blank. */
  lemma CleanTextBlank(text: string, maxSeqLength: Option<nat>)
    ensures AllSpace(CleanText(text, maxSeqLength)) <==> AllSpace(text)
  {
    var r, n, m := CleanText(text, maxSeqLength), Normalize(text), MaxChars(maxSeqLength);
    if |n| > m {
      assert !IsSpace(r[|r| - 1]);
    } else if n != [] {
      assert !IsSpace(n[0]);
    }
  }

  /** Cleaning a cleaned text changes nothing. */
  lemma CleanTextIdempotent(text: string, maxSeqLength: Option<nat>)
    ensures CleanText(CleanText(text, maxSeqLength), maxSeqLength) == CleanText(text, maxSeqLength)
  {
    var r, n, m := CleanText(text, maxSeqLength), Normalize(text), MaxChars(maxSeqLength);
    CleanTextNormalized(text, maxSeqLength);
    assert Normalize(r) == r;
    if |n| > m {
      assert r[..m] == n[..m];
      assert r[..m] + "..." == r;
    }
  }

  /** The cleaned texts that are not blank, in order: the texts the batch
      encoder receives. */
  function ValidTexts(texts: seq<string>, maxSeqLength: Option<nat>): (r: seq<string>)
    ensures |r| <= |texts|
    ensures forall i :: 0 <= i < |r| ==> !AllSpace(r[i])
    decreases |texts|
  {
    if texts == [] then []
    else
      var c := CleanText(texts[0], maxSeqLength);
      (if AllSpace(c) then [] else [c]) + ValidTexts(texts[1..], maxSeqLength)
  }

  /** Nothing is left exactly when every text is blank, and a batch without
      blank texts keeps every text. */
  lemma {:induction false} ValidTextsCount(texts: seq<string>, maxSeqLength: Option<nat>)
    ensures ValidTexts(texts, maxSeqLength) == [] <==> forall i :: 0 <= i < |texts| ==> AllSpace(texts[i])
    ensures (forall i :: 0 <= i < |texts| ==> !AllSpace(texts[i])) ==> |ValidTexts(texts, maxSeqLength)| == |texts|
    decreases |texts|
  {
    if texts != [] {
      CleanTextBlank(texts[0], maxSeqLength);
      ValidTextsCount(texts[1..], maxSeqLength);
      assert forall i :: 1 <= i < |texts| ==> texts[i] == texts[1..][i - 1];
    }
  }

  // ---------------------------------------------------------------- ranking

  /** One line of find_most_similar's answer. */
  datatype Entry = Entry(index: nat, similarity: real)

  /** `a` comes before `b` in the answer: a higher similarity first, and on
      equal similarity the earlier candidate, as Python's stable sort with
      reverse=True leaves them. */
  predicate Before(a: Entry, b: Entry) {
    a.similarity > b.similarity || (a.similarity == b.similarity && a.index < b.index)
  }

  /** Each entry comes before the next. */
  predicate Ranked(s: seq<Entry>)
    decreases |s|
  {
    |s| <= 1 || (Before(s[0], s[1]) && Ranked(s[1..]))
  }

  predicate IndicesAbove(s: seq<Entry>, b: int) {
    forall k :: 0 <= k < |s| ==> s[k].index > b
  }

  /** Inserts `e` in front of the first entry whose similarity is not
      larger: `e` stays ahead of the entries it ties with. */
  function Insert(e: Entry, s: seq<Entry>): (r: seq<Entry>)
    ensures multiset(r) == multiset(s) + multiset{e}
    decreases |s|
  {
    if s == [] || s[0].similarity <= e.similarity then [e] + s
    else
      var t := Insert(e, s[1..]);
      assert s == [s[0]] + s[1..];
      [s[0]] + t
  }

  /** The first entry after an insertion is the new one or the old first. */
  lemma InsertHead(e: Entry, s: seq<Entry>)
    ensures |Insert(e, s)| == |s| + 1
    ensures Insert(e, s)[0] == e || (s != [] && Insert(e, s)[0] == s[0])
  {
    var r := Insert(e, s);
    assert |multiset(r)| == |multiset(s)| + 1;
  }

  /** Inserting an entry whose index is below every other keeps the
      sequence ranked. */
  lemma {:induction false} InsertRanked(e: Entry, s: seq<Entry>)
    requires Ranked(s) && IndicesAbove(s, e.index)
    ensures Ranked(Insert(e, s))
    decreases |s|
  {
    if s != [] && s[0].similarity > e.similarity {
      var t := Insert(e, s[1..]);
      assert IndicesAbove(s[1..], e.index) by {
        forall k | 0 <= k < |s[1..]| ensures s[1..][k].index > e.index { assert s[1..][k] == s[k + 1]; }
      }
      InsertRanked(e, s[1..]);
      InsertHead(e, s[1..]);
      var r := [s[0]] + t;
      assert Insert(e, s) == r;
      assert r[1..] == t && r[0] == s[0];
      assert |s| > 1 ==> s[1] == s[1..][0];
      assert Before(r[0], r[1]);
    }
  }

  /** The stable sort by descending similarity of find_most_similar. */
  function SortBySimilarity(s: seq<Entry>): (r: seq<Entry>)
    ensures multiset(r) == multiset(s)
    decreases |s|
  {
    if s == [] then []
    else
      var t := SortBySimilarity(s[1..]);
      assert s == [s[0]] + s[1..];
      Insert(s[0], t)
  }

  /** Rearranging keeps a lower bound on the indices. */
  lemma AboveByMultiset(s: seq<Entry>, t: seq<Entry>, b: int)
    requires multiset(s) == multiset(t) && IndicesAbove(s, b)
    ensures IndicesAbove(t, b)
  {
    forall k | 0 <= k < |t| ensures t[k].index > b {
      assert t[k] in multiset(s);
    }
  }

  predicate IncreasingIndices(s: seq<Entry>) {
    forall i, j :: 0 <= i < j < |s| ==> s[i].index < s[j].index
  }

  /** Entries listed by increasing candidate index come out ranked. */
  lemma {:induction false} SortRanked(s: seq<Entry>)
    requires IncreasingIndices(s)
    ensures Ranked(SortBySimilarity(s))
    decreases |s|
  {
    if s != [] {
      var t := SortBySimilarity(s[1..]);
      assert IncreasingIndices(s[1..]) by {
        forall i, j | 0 <= i < j < |s[1..]| ensures s[1..][i].index < s[1..][j].index {
          assert s[1..][i] == s[i + 1] && s[1..][j] == s[j + 1];
        }
      }
      SortRanked(s[1..]);
      assert IndicesAbove(s[1..], s[0].index) by {
        forall k | 0 <= k < |s[1..]| ensures s[1..][k].index > s[0].index { assert s[1..][k] == s[k + 1]; }
      }
      AboveByMultiset(s[1..], t, s[0].index);
      InsertRanked(s[0], t);
    }
  }

  /** In a ranked sequence every entry comes before every later one. */
  lemma {:induction false} RankedAll(s: seq<Entry>)
    requires Ranked(s)
    ensures forall i, j :: 0 <= i < j < |s| ==> Before(s[i], s[j])
    decreases |s|
  {
    if |s| > 1 {
      RankedAll(s[1..]);
      forall i, j | 0 <= i < j < |s| ensures Before(s[i], s[j]) {
        if i > 0 { assert s[i] == s[1..][i - 1] && s[j] == s[1..][j - 1]; }
        else if j > 1 { assert Before(s[1], s[j]) by { assert s[1] == s[1..][0] && s[j] == s[1..][j - 1]; } }
      }
    }
  }

  /** Python's `s[:k]`: a negative `k` counts from the end. */
  function PyHead<T>(s: seq<T>, k: int): (r: seq<T>)
    ensures k >= 0 ==> r == s[..if k <= |s| then k else |s|]
    ensures k < 0 ==> r == s[..if |s| + k >= 0 then |s| + k else 0]
  {
    if k >= 0 then s[..if k <= |s| then k else |s|]
    else s[..if |s| + k >= 0 then |s| + k else 0]
  }

  /** numpy's ValueError for `np.dot` of two 1-D arrays of different
      lengths. */
  function NotAligned(n: nat, m: nat): string {
    "shapes (" + NatToString(n) + ",) and (" + NatToString(m) + ",) not aligned: "
    + NatToString(n) + " (dim 0) != " + NatToString(m) + " (dim 0)"
  }

  /** compute_similarity: `np.dot` in _cosine_similarity raises for vectors of
      different lengths, and the error is re-raised; otherwise the cosine,
      which is the parameter `cosine`. */
  function ComputeSimilarity(a: seq<real>, b: seq<real>, cosine: (seq<real>, seq<real>) -> real): (r: Result<real>)
    ensures r.Success? <==> |a| == |b|
    ensures r.Success? ==> r.value == cosine(a, b)
    ensures r.Failure? ==> r.error == NotAligned(|a|, |b|)
  {
    if |a| != |b| then Failure(NotAligned(|a|, |b|)) else Success(cosine(a, b))
  }

  /** The first candidate whose length differs from the query's is the one
      Search.FirstMismatch names. */
  lemma FirstMismatchAt(query: seq<real>, cands: seq<seq<real>>, i: nat)
    requires i < |cands| && |cands[i]| != |query|
    requires forall k :: 0 <= k < i ==> |cands[k]| == |query|
    ensures Search.FirstMismatch(query, cands) == Some(i)
  {
    var r := Search.FirstMismatch(query, cands);
    assert r.Some?;
    assert !(r.value < i) && !(r.value > i);
  }

  /** Every candidate with its similarity to the query, in input order. */
  function Scored(query: seq<real>, cands: seq<seq<real>>, similarity: (seq<real>, seq<real>) -> real): (r: seq<Entry>)
    ensures |r| == |cands|
    ensures forall i :: 0 <= i < |cands| ==> r[i] == Entry(i, similarity(query, cands[i]))
  {
    seq(|cands|, i requires 0 <= i < |cands| => Entry(i, similarity(query, cands[i])))
  }

  /** The sorted scores: every candidate once, with its own similarity,
      best first. */
  lemma SortedScores(query: seq<real>, cands: seq<seq<real>>, similarity: (seq<real>, seq<real>) -> real)
    ensures var t := SortBySimilarity(Scored(query, cands, similarity));
      |t| == |cands|
      && (forall i, j :: 0 <= i < j < |t| ==> Before(t[i], t[j]))
      && (forall i :: 0 <= i < |t| ==> t[i].index < |cands| && t[i] == Entry(t[i].index, similarity(query, cands[t[i].index])))
      && (forall c :: 0 <= c < |cands| ==> Entry(c, similarity(query, cands[c])) in t)
  {
    var s := Scored(query, cands, similarity);
    var t := SortBySimilarity(s);
    assert |t| == |multiset(t)| == |multiset(s)| == |s|;
    SortRanked(s);
    RankedAll(t);
    forall i | 0 <= i < |t|
      ensures t[i].index < |cands| && t[i] == Entry(t[i].index, similarity(query, cands[t[i].index]))
    {
      assert t[i] in multiset(s);
    }
    forall c | 0 <= c < |cands| ensures Entry(c, similarity(query, cands[c])) in t {
      assert s[c] in multiset(t);
    }
  }

  /** The answer of find_most_similar for a non-negative top_k is the best
      top_k candidates (or all of them), best first; each appears once with
      its own similarity, and no candidate left out scores higher than one
      that is kept. */
  lemma MostSimilarIsTopK(query: seq<real>, cands: seq<seq<real>>, similarity: (seq<real>, seq<real>) -> real, topK: nat)
    ensures var r := PyHead(SortBySimilarity(Scored(query, cands, similarity)), topK);
      |r| == (if topK <= |cands| then topK else |cands|)
      && (forall i, j :: 0 <= i < j < |r| ==> Before(r[i], r[j]))
      && (forall i :: 0 <= i < |r| ==> r[i].index < |cands| && r[i].similarity == similarity(query, cands[r[i].index]))
      && (forall c, i :: 0 <= c < |cands| && 0 <= i < |r| && Entry(c, similarity(query, cands[c])) !in r
            ==> similarity(query, cands[c]) <= r[i].similarity)
  {
    var t := SortBySimilarity(Scored(query, cands, similarity));
    SortedScores(query, cands, similarity);
    var m := if topK <= |cands| then topK else |cands|;
    var r := t[..m];
    assert PyHead(t, topK) == r;
    forall c, i | 0 <= c < |cands| && 0 <= i < |r| && Entry(c, similarity(query, cands[c])) !in r
      ensures similarity(query, cands[c]) <= r[i].similarity
    {
      var e := Entry(c, similarity(query, cands[c]));
      var q :| 0 <= q < |t| && t[q] == e;
      assert forall k :: 0 <= k < m ==> r[k] == t[k];
      assert Before(t[i], t[q]);
    }
  }

  // ---------------------------------------------------------------- the service

  const NotInitialized := "Embeddings service not initialized"

  /** get_model_info's answer. */
  datatype ModelInfo =
    | NotInitializedInfo
    | ReadyInfo(modelName: string, device: string, cacheDir: string,
                embeddingDimension: Option<int>, maxSequenceLength: Option<nat>)

  class EmbeddingsService {
    const modelName: string
    const device: string
    const cacheDir: string
    var model: Option<SentenceModel>
    var initialized: bool
    var embeddingDimension: Option<int>
    var maxSequenceLength: Option<nat>

    /** The model is loaded exactly when the service is initialized, and the
        model's figures are recorded exactly then. */
    predicate Valid()
      reads this
    {
      (initialized <==> model.Some?)
      && (initialized ==> embeddingDimension == Some(model.value.dimension)
                          && maxSequenceLength == Some(SeqLength(model.value)))
      && (!initialized ==> embeddingDimension.None? && maxSequenceLength.None?)
    }

    /** __init__: settings recorded, nothing loaded. */
    constructor (modelName: string, device: string, cacheDir: string)
      ensures this.modelName == modelName && this.device == device && this.cacheDir == cacheDir
      ensures model.None? && !initialized && embeddingDimension.None? && maxSequenceLength.None?
      ensures Valid()
    {
      this.modelName := modelName;
      this.device := device;
      this.cacheDir := cacheDir;
      model := None;
      initialized := false;
      embeddingDimension := None;
      maxSequenceLength := None;
    }

    /** is_ready: initialized and a model is loaded. */
    predicate IsReady()
      reads this
    {
      initialized && model.Some?
    }

    /** initialize: False without sentence-transformers and when the model
        cannot be built, True at once when already initialized, and otherwise
        the new model and its figures are recorded. */
    method Initialize(h: EmbHost) returns (ok: bool)
      requires Valid()
      modifies this
      ensures Valid()
      ensures !h.available ==> !ok
      ensures h.available && old(initialized) ==> ok
      ensures h.available && !old(initialized) ==> (ok <==> h.created.Some?)
      ensures !ok || old(initialized) ==>
        model == old(model) && initialized == old(initialized)
        && embeddingDimension == old(embeddingDimension) && maxSequenceLength == old(maxSequenceLength)
      ensures ok && !old(initialized) ==> model == h.created && IsReady()
    {
      if !h.available {
        return false;
      }
      if initialized {
        return true;
      }
      var dev := DetermineDevice(device, h.probe);
      if h.created.None? {
        return false;
      }
      var m := h.created.value;
      model := Some(m);
      embeddingDimension := Some(m.dimension);
      maxSequenceLength := Some(SeqLength(m));
      initialized := true;
      return true;
    }

    /** get_model_info: "not_initialized" before initialization, the
        settings and the model's figures after. The device reported is the
        setting, not the device chosen by _determine_device. */
    function GetModelInfo(): (info: ModelInfo)
      reads this
      ensures info.NotInitializedInfo? <==> !initialized
      ensures info.ReadyInfo? ==>
        info.device == device && info.modelName == modelName
        && info.embeddingDimension == embeddingDimension && info.maxSequenceLength == maxSequenceLength
    {
      if !initialized then NotInitializedInfo
      else ReadyInfo(modelName, device, cacheDir, embeddingDimension, maxSequenceLength)
    }

    /** cleanup: drops the model and every recorded figure. */
    method Cleanup()
      modifies this
      ensures model.None? && !initialized && embeddingDimension.None? && maxSequenceLength.None?
      ensures Valid() && !IsReady() && GetModelInfo() == NotInitializedInfo
    {
      model := None;
      initialized := false;
      embeddingDimension := None;
      maxSequenceLength := None;
    }

    /** generate_embedding: an error before initialization, None for a
        text that is blank, and otherwise the encoder's answer for the
        cleaned text. */
    method GenerateEmbedding(text: string, encode: string -> Option<seq<real>>)
      returns (r: Result<Option<seq<real>>>)
      ensures !IsReady() ==> r == Failure(NotInitialized)
      ensures IsReady() && AllSpace(text) ==> r == Success(None)
      ensures IsReady() && !AllSpace(text) ==> r == Success(encode(CleanText(text, maxSequenceLength)))
    {
      if !IsReady() {
        return Failure(NotInitialized);
      }
      var cleaned := CleanText(text, maxSequenceLength);
      CleanTextBlank(text, maxSequenceLength);
      if AllSpace(cleaned) {
        return Success(None);
      }
      return Success(encode(cleaned));
    }

    /** generate_embeddings: an error before initialization, the empty list
        when every text is blank, and otherwise the batch encoder's answer
        for the cleaned texts that are not blank, so that the answer can be
        shorter than the input. */
    method GenerateEmbeddings(texts: seq<string>, encodeBatch: seq<string> -> Option<seq<seq<real>>>)
      returns (r: Result<Option<seq<seq<real>>>>)
      ensures !IsReady() ==> r == Failure(NotInitialized)
      ensures IsReady() && (forall i :: 0 <= i < |texts| ==> AllSpace(texts[i])) ==> r == Success(Some([]))
      ensures IsReady() && (exists i :: 0 <= i < |texts| && !AllSpace(texts[i])) ==>
        r == Success(encodeBatch(ValidTexts(texts, maxSequenceLength)))
    {
      if !IsReady() {
        return Failure(NotInitialized);
      }
      var valid := ValidTexts(texts, maxSequenceLength);
      ValidTextsCount(texts, maxSequenceLength);
      if valid == [] {
        return Success(Some([]));
      }
      return Success(encodeBatch(valid));
    }

    /** find_most_similar: nothing for no candidates; otherwise every
        candidate is scored in turn, and the first one whose length differs
        from the query's raises compute_similarity's error. When every
        score exists, the scores are sorted best first and the first top_k
        are returned. */
    method FindMostSimilar(query: seq<real>, cands: seq<seq<real>>, topK: int,
                           cosine: (seq<real>, seq<real>) -> real)
      returns (r: Result<seq<Entry>>)
      ensures cands == [] ==> r == Success([])
      ensures cands != [] ==> match Search.FirstMismatch(query, cands)
        case Some(i) => r == Failure(NotAligned(|query|, |cands[i]|))
        case None => r == Success(PyHead(SortBySimilarity(Scored(query, cands, cosine)), topK))
    {
      if cands == [] {
        return Success([]);
      }
      var sims: seq<Entry> := [];
      var i := 0;
      while i < |cands|
        invariant 0 <= i <= |cands|
        invariant forall k :: 0 <= k < i ==> |cands[k]| == |query|
        invariant sims == Scored(query, cands[..i], cosine)
      {
        var sim := ComputeSimilarity(query, cands[i], cosine);
        if sim.Failure? {
          FirstMismatchAt(query, cands, i);
          return Failure(sim.error);
        }
        sims := sims + [Entry(i, sim.value)];
        i := i + 1;
      }
      assert cands[..i] == cands;
      var sorted := SortBySimilarity(sims);
      r := Success(PyHead(sorted, topK));
    }
  }

  /** Before initialization and after cleanup the service reports itself
      not ready and its model info "not_initialized". */
  lemma ReadyIffInitialized(s: EmbeddingsService)
    requires s.Valid()
    ensures s.IsReady() <==> s.initialized
    ensures s.GetModelInfo().NotInitializedInfo? <==> !s.IsReady()
  {
  }
}
