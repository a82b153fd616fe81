// The ONNX embeddings service (backend/internal/minilm/onnx_embeddings.go):
// turning a text into a fixed-length id/mask pair, validating and ranking
// embeddings, and the sorted key list used in its error messages.
module OnnxEmbeddings {
  import opened Wrappers
  import opened Text
  import opened WordPiece
  import opened Search

  // ---------------------------------------------------------------- encoding

  /** The ids of a sequence of words: each word's pieces, in order. */
  function WordIds(t: Tokenizer, words: seq<string>): seq<int>
  {
    if words == [] then []
    else WordIds(t, words[..|words| - 1]) + Pieces(t, words[|words| - 1], false)
  }

  /** [CLS], the pieces of every basic token, [SEP]: before truncation. */
  function Framed(t: Tokenizer, text: string): seq<int>
  {
    [t.clsID] + WordIds(t, BasicTokenSpec(text)) + [t.sepID]
  }

  /** The first `maxLen` ids of `full`, padded with id 0. */
  function Window(full: seq<int>, maxLen: nat): (r: seq<int>)
    ensures |r| == maxLen
    ensures forall i :: 0 <= i < maxLen ==> r[i] == (if i < |full| then full[i] else 0)
  {
    seq(maxLen, i requires 0 <= i < maxLen => if i < |full| then full[i] else 0)
  }

  /** Attention mask: 1 on the first min(n, maxLen) positions, 0 after. */
  function MaskOf(n: nat, maxLen: nat): (r: seq<int>)
    ensures |r| == maxLen
    ensures forall i :: 0 <= i < maxLen ==> (r[i] == 1 <==> i < n) && (r[i] == 0 <==> n <= i)
  {
    seq(maxLen, i requires 0 <= i < maxLen => if i < n then 1 else 0)
  }

  /** Every non-empty word yields at least one id. */
  lemma PiecesNotEmpty(t: Tokenizer, tok: string)
    requires tok != []
    ensures |Pieces(t, tok, false)| >= 1
  {
    var s := Segment(t.vocab, tok, false);
    if !s.stuck { assert s.pieces != []; }
  }

  /** Each basic token contributes at least one id, so the framed sequence
      has at least two more ids than the text has words. */
  lemma {:induction false} WordIdsAtLeastWords(t: Tokenizer, words: seq<string>)
    requires forall i :: 0 <= i < |words| ==> words[i] != []
    ensures |WordIds(t, words)| >= |words|
    decreases |words|
  {
    if words != [] {
      WordIdsAtLeastWords(t, words[..|words| - 1]);
      PiecesNotEmpty(t, words[|words| - 1]);
    }
  }

  /** The encoding starts with [CLS]; [SEP] is kept only when the framed
      sequence fits, and a text with more than maxLen - 2 words always loses
      it: every position is then a real piece and the mask is all ones. */
  lemma EncodeFraming(t: Tokenizer, text: string, maxLen: nat)
    ensures maxLen > 0 ==> Window(Framed(t, text), maxLen)[0] == t.clsID
    ensures |Framed(t, text)| <= maxLen ==> Window(Framed(t, text), maxLen)[|Framed(t, text)| - 1] == t.sepID
    ensures |BasicTokenSpec(text)| + 2 > maxLen ==> |Framed(t, text)| > maxLen
    ensures |Framed(t, text)| > maxLen ==>
      (Window(Framed(t, text), maxLen) == Framed(t, text)[..maxLen]
       && forall i :: 0 <= i < maxLen ==> MaskOf(|Framed(t, text)|, maxLen)[i] == 1)
  {
    var words := BasicTokenSpec(text);
    RunsWellFormed(ToLower(text), IsAlnum);
    WordIdsAtLeastWords(t, words);
  }

  /** encode: [CLS] + pieces + [SEP], cut to maxLen, written into two
      zero-initialised slices of length maxLen; padding ids are 0 (padID is
      not used). */
  method Encode(t: Tokenizer, text: string, maxLen: nat) returns (ids: seq<int>, mask: seq<int>)
    ensures ids == Window(Framed(t, text), maxLen)
    ensures mask == MaskOf(|Framed(t, text)|, maxLen)
  {
    var pieces := TextIds(t, text);
    var full := [t.clsID] + pieces + [t.sepID];
    ids, mask := Pad(full, maxLen);
  }

  /** The word pieces of every basic token of `text`, in order. */
  method TextIds(t: Tokenizer, text: string) returns (pieces: seq<int>)
    ensures pieces == WordIds(t, BasicTokenSpec(text))
  {
    var toks := BasicTokens(text);
    pieces := [];
    var w := 0;
    while w < |toks|
      invariant 0 <= w <= |toks|
      invariant pieces == WordIds(t, toks[..w])
    {
      assert '#' !in toks[w] by {
        forall k | 0 <= k < |toks[w]| ensures toks[w][k] != '#' { assert IsAlnum(toks[w][k]); }
      }
      var p := TokenizeWord(t, toks[w]);
      PiecesAgreeWithoutHash(t, toks[w], false);
      assert toks[..w + 1][..w] == toks[..w];
      pieces := pieces + p;
      w := w + 1;
    }
    assert toks[..w] == toks;
  }

  /** Cuts `full` to `maxLen` ids and writes it into two zero-initialised
      buffers of length maxLen: the ids and the attention mask. */
  method Pad(full: seq<int>, maxLen: nat) returns (ids: seq<int>, mask: seq<int>)
    ensures ids == Window(full, maxLen)
    ensures mask == MaskOf(|full|, maxLen)
  {
    var s := full;
    if |s| > maxLen {
      s := s[..maxLen];
    }
    var a := new int[maxLen](_ => 0);
    var m := new int[maxLen](_ => 0);
    var i := 0;
    while i < |s|
      invariant 0 <= i <= |s| <= maxLen
      invariant forall k :: 0 <= k < i ==> a[k] == s[k] && m[k] == 1
      invariant forall k :: i <= k < maxLen ==> m[k] == 0
      modifies a, m
    {
      a[i] := s[i];
      m[i] := 1;
      i := i + 1;
    }
    while i < maxLen
      invariant |s| <= i <= maxLen
      invariant forall k :: 0 <= k < |s| ==> a[k] == s[k] && m[k] == 1
      invariant forall k :: |s| <= k < i ==> a[k] == 0
      invariant forall k :: |s| <= k < maxLen ==> m[k] == 0
      modifies a
    {
      a[i] := 0;
      i := i + 1;
    }
    ids, mask := a[..], m[..];
  }

  /** batchTokenize: one encoding per text, in order. */
  method BatchTokenize(t: Tokenizer, texts: seq<string>, maxLen: nat)
    returns (ids: seq<seq<int>>, masks: seq<seq<int>>)
    ensures |ids| == |texts| && |masks| == |texts|
    ensures forall i :: 0 <= i < |texts| ==>
      ids[i] == Window(Framed(t, texts[i]), maxLen) && masks[i] == MaskOf(|Framed(t, texts[i])|, maxLen)
  {
    ids, masks := [], [];
    var i := 0;
    while i < |texts|
      invariant 0 <= i <= |texts|
      invariant |ids| == i && |masks| == i
      invariant forall k :: 0 <= k < i ==>
        ids[k] == Window(Framed(t, texts[k]), maxLen) && masks[k] == MaskOf(|Framed(t, texts[k])|, maxLen)
    {
      var ii, mm := Encode(t, texts[i], maxLen);
      ids, masks := ids + [ii], masks + [mm];
      i := i + 1;
    }
  }

  // ---------------------------------------------------------------- similarity

  /** ComputeSimilarity: the dot product (the cosine of normalised vectors),
      after rejecting vectors of different or zero length. */
  method ComputeSimilarity(a: seq<real>, b: seq<real>) returns (r: Result<real>)
    ensures |a| != |b| ==> r == Failure(DimensionMismatch)
    ensures |a| == |b| && a == [] ==> r == Failure(EmptyEmbedding)
    ensures |a| == |b| && a != [] ==> r == Success(DotSpec(a, b))
  {
    if |a| != |b| {
      return Failure(DimensionMismatch);
    }
    if |a| == 0 {
      return Failure(EmptyEmbedding);
    }
    var d := Dot(a, b);
    return Success(d);
  }

  /** The dot-product score of every candidate. */
  function DotScores(query: seq<real>, cands: seq<seq<real>>): (r: seq<real>)
    requires forall i :: 0 <= i < |cands| ==> |cands[i]| == |query|
    ensures |r| == |cands| && forall i :: 0 <= i < |cands| ==> r[i] == DotSpec(query, cands[i])
  {
    seq(|cands|, i requires 0 <= i < |cands| => DotSpec(query, cands[i]))
  }

  /** SearchSimilar: validate, score every candidate, rank by descending
      score and keep the top K (5 when topK <= 0). */
  method SearchSimilar(query: seq<real>, cands: seq<seq<real>>, topK: int) returns (r: Result<Ranking>)
    ensures FirstMismatch(query, cands).None? ==>
      SearchOutcome(query, cands, topK, DotScores(query, cands), r)
    ensures FirstMismatch(query, cands).Some? ==>
      SearchOutcome(query, cands, topK, [], r)
  {
    if |query| == 0 {
      return Failure(EmptyQuery);
    }
    if |cands| == 0 {
      return Failure(EmptyCandidates);
    }
    var k := EffectiveTopK(topK);
    var scores: seq<real> := [];
    var i := 0;
    while i < |cands|
      invariant 0 <= i <= |cands|
      invariant forall j :: 0 <= j < i ==> |cands[j]| == |query|
      invariant |scores| == i && forall j :: 0 <= j < i ==> scores[j] == DotSpec(query, cands[j])
    {
      var sim := ComputeSimilarity(query, cands[i]);
      if sim.Failure? {
        assert FirstMismatch(query, cands) == Some(i);
        return Failure(CandidateError(i, sim.error));
      }
      scores := scores + [sim.value];
      i := i + 1;
    }
    assert scores == DotScores(query, cands);
    var indices, sims := Rank(scores, k);
    return Success(Ranking(indices, sims));
  }

  // ---------------------------------------------------------------- keys

  /** Inserts `x` into a strictly sorted list that does not hold it. */
  function Insert(s: seq<string>, x: string): (r: seq<string>)
    requires StrictlySorted(s) && x !in s
    ensures StrictlySorted(r) && |r| == |s| + 1
    ensures forall y :: y in r <==> y in s || y == x
  {
    if s == [] then [x]
    else if Less(x, s[0]) then
      assert forall j :: 0 <= j < |s| ==> Less(x, s[j]) by {
        forall j | 0 <= j < |s| ensures Less(x, s[j]) {
          if j > 0 { LessTransitive(x, s[0], s[j]); }
        }
      }
      [x] + s
    else
      LessTotal(x, s[0]);
      var rest := Insert(s[1..], x);
      assert forall y :: y in rest ==> Less(s[0], y);
      [s[0]] + rest
  }

  /** keys: the keys of the map in sorted order, each once. */
  method Keys(m: map<string, bool>) returns (ks: seq<string>)
    ensures StrictlySorted(ks)
    ensures forall k :: k in ks <==> k in m
    ensures |ks| == |m|
  {
    ks := [];
    var remaining := m.Keys;
    while remaining != {}
      invariant remaining <= m.Keys
      invariant StrictlySorted(ks)
      invariant forall k :: k in ks <==> k in m && k !in remaining
      invariant |ks| + |remaining| == |m.Keys|
      decreases |remaining|
    {
      var k :| k in remaining;
      ks := Insert(ks, k);
      remaining := remaining - {k};
    }
  }
}
