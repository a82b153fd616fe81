// The pure-Go WordPiece tokenizer of the ONNX embeddings service
// (backend/internal/minilm/onnx_embeddings.go): basic tokenisation, greedy
// longest-prefix piece matching with "##" continuation pieces, and loading a
// vocabulary from the text of vocab.txt.
module WordPiece {
  import opened Wrappers
  import opened Text

  /** The tokenizer state: vocabulary and the four special ids. */
  datatype Tokenizer = Tokenizer(vocab: map<string, int>, unkID: int, clsID: int, sepID: int, padID: int)

  // ---------------------------------------------------------------- basic tokens

  /** The basic tokens of `s`: the maximal runs of letters and digits of the
      lower-cased text. */
  function BasicTokenSpec(s: string): seq<string> { Runs(ToLower(s), IsAlnum) }

  /** Lower-cases `s` and collects its letter/digit runs, flushing the current
      run at every other character and at the end. */
  method BasicTokens(s: string) returns (out: seq<string>)
    ensures out == BasicTokenSpec(s)
    ensures forall i :: 0 <= i < |out| ==> out[i] != []
    ensures forall i, k :: 0 <= i < |out| && 0 <= k < |out[i]| ==> IsAlnum(out[i][k])
  {
    var low := ToLower(s);
    out := [];
    var cur: string := [];
    var i := 0;
    ScanStart(low, IsAlnum);
    while i < |low|
      invariant Scanned(out, cur, low, i, IsAlnum)
      decreases |low| - i
    {
      var c := low[i];
      if IsAlnum(c) {
        ScanKeep(out, cur, low, i, IsAlnum);
        cur := cur + [c];
      } else {
        ScanDrop(out, cur, low, i, IsAlnum);
        if cur != [] {
          out := out + [cur];
        }
        cur := [];
      }
      i := i + 1;
    }
    ScanFinish(out, cur, low, IsAlnum);
    RunsWellFormed(low, IsAlnum);
    if cur != [] {
      out := out + [cur];
    }
  }

  /** The basic tokens, glued together, are exactly the letters and digits of
      the lower-cased text: nothing else is kept and nothing is lost. */
  lemma BasicTokensKeepAlnum(s: string)
    ensures Concat(BasicTokenSpec(s)) == Filter(ToLower(s), IsAlnum)
  {
    RunsConcat(ToLower(s), IsAlnum);
  }

  // ---------------------------------------------------------------- longest match

  /** The vocabulary key tried for the prefix `sub`: later pieces carry "##". */
  function Candidate(sub: string, cont: bool): string { if cont then "##" + sub else sub }

  /** Tries prefix lengths end, end-1, ..., 1 and yields the first one whose
      key is in the vocabulary. */
  function LongestFrom(vocab: map<string, int>, tok: string, cont: bool, end: nat): (r: Option<nat>)
    requires end <= |tok|
    ensures r.Some? ==> 1 <= r.value <= end && Candidate(tok[..r.value], cont) in vocab
    ensures r.Some? ==> forall e :: r.value < e <= end ==> Candidate(tok[..e], cont) !in vocab
    ensures r.None? <==> forall e :: 1 <= e <= end ==> Candidate(tok[..e], cont) !in vocab
    decreases end
  {
    if end == 0 then None
    else if Candidate(tok[..end], cont) in vocab then Some(end)
    else LongestFrom(vocab, tok, cont, end - 1)
  }

  /** The length of the longest prefix of `tok` whose key is in the vocabulary. */
  function LongestMatch(vocab: map<string, int>, tok: string, cont: bool): Option<nat>
  {
    LongestFrom(vocab, tok, cont, |tok|)
  }

  // ---------------------------------------------------------------- pieces

  /** The segmentation of a word: the matched prefixes, left to right, and
      whether the tokenizer got stuck on a remainder that has no match. */
  datatype Segmentation = Segmentation(pieces: seq<string>, stuck: bool)

  /** The intended greedy segmentation: each piece is the longest matching
      prefix of what is left, and it consumes exactly its own bytes. */
  function Segment(vocab: map<string, int>, tok: string, cont: bool): (s: Segmentation)
    ensures forall i :: 0 <= i < |s.pieces| ==> s.pieces[i] != []
    ensures HasPrefix(tok, Concat(s.pieces))
    ensures !s.stuck <==> Concat(s.pieces) == tok
    ensures s.stuck ==> LongestMatch(vocab, tok[|Concat(s.pieces)|..], cont || s.pieces != []).None?
    ensures forall i :: 0 <= i < |s.pieces| ==> Candidate(s.pieces[i], cont || i > 0) in vocab
    decreases |tok|
  {
    if tok == [] then Segmentation([], false)
    else match LongestMatch(vocab, tok, cont)
      case None => Segmentation([], true)
      case Some(e) =>
        var rest := Segment(vocab, tok[e..], true);
        SegmentCons(vocab, tok, e, rest);
        Segmentation([tok[..e]] + rest.pieces, rest.stuck)
  }

  lemma SegmentCons(vocab: map<string, int>, tok: string, e: nat, rest: Segmentation)
    requires 1 <= e <= |tok|
    requires HasPrefix(tok[e..], Concat(rest.pieces))
    requires !rest.stuck <==> Concat(rest.pieces) == tok[e..]
    ensures var ps := [tok[..e]] + rest.pieces;
      Concat(ps) == tok[..e] + Concat(rest.pieces)
      && HasPrefix(tok, Concat(ps))
      && (!rest.stuck <==> Concat(ps) == tok)
      && tok[|Concat(ps)|..] == tok[e..][|Concat(rest.pieces)|..]
  {
    var ps := [tok[..e]] + rest.pieces;
    assert ps[0] == tok[..e] && ps[1..] == rest.pieces;
    var c := Concat(rest.pieces);
    assert tok == tok[..e] + tok[e..];
    assert tok[e..] == c + tok[e..][|c|..];
    assert tok == tok[..e] + c + tok[e..][|c|..];
    assert (tok[..e] + c) + tok[e..][|c|..] == tok;
    assert Concat(ps) == tok[..e] + c;
    if Concat(ps) == tok {
      assert tok[e..] == c by {
        assert |c| == |tok[e..]|;
        assert tok[e..] == tok[e..][..|c|] ;
      }
    }
  }

  /** The ids of the pieces: the first looked up without "##" (unless `cont`),
      every later one with it. */
  function PieceIds(vocab: map<string, int>, pieces: seq<string>, cont: bool): (r: seq<int>)
    requires forall i :: 0 <= i < |pieces| ==> Candidate(pieces[i], cont || i > 0) in vocab
    ensures |r| == |pieces|
    ensures forall i :: 0 <= i < |pieces| ==> r[i] == vocab[Candidate(pieces[i], cont || i > 0)]
  {
    if pieces == [] then []
    else [vocab[Candidate(pieces[0], cont)]] + PieceIds(vocab, pieces[1..], true)
  }

  /** The intended ids of a word: the ids of its pieces, followed by one
      `unkID` when the tokenizer got stuck. */
  function Pieces(t: Tokenizer, tok: string, cont: bool): seq<int> {
    var s := Segment(t.vocab, tok, cont);
    PieceIds(t.vocab, s.pieces, cont) + (if s.stuck then [t.unkID] else [])
  }

  /** Bytes of the word that a found piece removes, as the Go loop computes
      them: the length of the matched key after one leading "##" is cut off. */
  function ConsumedAsWritten(key: string): nat {
    if HasPrefix(key, "##") then |key| - 2 else |key|
  }

  /** The ids that tokenizeWord produces as written. The only difference from
      `Pieces` is that the "##" is cut from the FIRST key too when the word
      itself starts with "##", so that piece consumes two bytes too few. */
  function PiecesAsWritten(t: Tokenizer, tok: string, cont: bool): (r: seq<int>)
    decreases |tok|, if cont then 0 else 1
  {
    if tok == [] then []
    else match LongestMatch(t.vocab, tok, cont)
      case None => [t.unkID]
      case Some(e) =>
        var key := Candidate(tok[..e], cont);
        assert cont ==> HasPrefix(key, "##") && ConsumedAsWritten(key) == e;
        [t.vocab[key]] + PiecesAsWritten(t, tok[ConsumedAsWritten(key)..], true)
  }

  /** One step of the intended tokenizer: a longest match emits its id and
      continues after it; no match emits `unkID` once and stops. */
  lemma {:induction false} PiecesStep(t: Tokenizer, tok: string, cont: bool)
    requires tok != []
    ensures LongestMatch(t.vocab, tok, cont).None? ==> Pieces(t, tok, cont) == [t.unkID]
    ensures LongestMatch(t.vocab, tok, cont).Some? ==>
      var e := LongestMatch(t.vocab, tok, cont).value;
      Pieces(t, tok, cont) == [t.vocab[Candidate(tok[..e], cont)]] + Pieces(t, tok[e..], true)
  {
    match LongestMatch(t.vocab, tok, cont)
    case None =>
    case Some(e) =>
      var rest := Segment(t.vocab, tok[e..], true);
      var s := Segment(t.vocab, tok, cont);
      assert s.pieces == [tok[..e]] + rest.pieces;
      assert s.pieces[1..] == rest.pieces;
      assert PieceIds(t.vocab, s.pieces, cont)
        == [t.vocab[Candidate(tok[..e], cont)]] + PieceIds(t.vocab, rest.pieces, true);
  }

  /** On a word without '#' (every word `BasicTokens` yields) the Go loop
      computes the intended ids. */
  lemma {:induction false} PiecesAgreeWithoutHash(t: Tokenizer, tok: string, cont: bool)
    requires '#' !in tok
    ensures PiecesAsWritten(t, tok, cont) == Pieces(t, tok, cont)
    decreases |tok|
  {
    if tok != [] {
      PiecesStep(t, tok, cont);
      match LongestMatch(t.vocab, tok, cont)
      case None =>
      case Some(e) =>
        var key := Candidate(tok[..e], cont);
        assert !cont ==> key[0] == tok[0];
        assert ConsumedAsWritten(key) == e;
        assert '#' !in tok[e..] by {
          forall k | 0 <= k < |tok[e..]| ensures tok[e..][k] != '#' { assert tok[e..][k] == tok[e + k]; }
        }
        PiecesAgreeWithoutHash(t, tok[e..], true);
    }
  }

  /** The word "##ab" with the vocabulary {"##ab": 7}: the Go loop matches the
      whole word as its first piece but consumes only "##", then matches the
      remaining "ab" as the continuation "##ab" again, so the id is emitted
      twice; the intended result is a single piece. */
  lemma FirstPieceWithHashesRepeats()
    ensures PiecesAsWritten(Tokenizer(map["##ab" := 7], 100, 101, 102, 0), "##ab", false) == [7, 7]
    ensures Pieces(Tokenizer(map["##ab" := 7], 100, 101, 102, 0), "##ab", false) == [7]
  {
    var t := Tokenizer(map["##ab" := 7], 100, 101, 102, 0);
    var w: string := "##ab";
    assert w[..4] == "##ab";
    assert LongestMatch(t.vocab, w, false) == Some(4);
    assert ConsumedAsWritten("##ab") == 2;
    var rest: string := w[2..];
    assert rest == "ab";
    assert rest[..2] == "ab";
    assert Candidate(rest[..2], true) == "##ab";
    assert LongestMatch(t.vocab, rest, true) == Some(2);
    assert rest[2..] == [];
    assert PiecesAsWritten(t, rest, true) == [7];
    PiecesStep(t, w, false);
    assert w[4..] == [];
  }

  /** Every piece of the intended tokenizer consumes at least one byte, the
      pieces spell out the word unless it got stuck, and an unknown remainder
      adds a single `unkID` after the pieces already found. */
  lemma PiecesCoverWord(t: Tokenizer, tok: string)
    ensures var s := Segment(t.vocab, tok, false);
      (forall i :: 0 <= i < |s.pieces| ==> |s.pieces[i]| >= 1)
      && (s.stuck || Concat(s.pieces) == tok)
      && |Pieces(t, tok, false)| == |s.pieces| + (if s.stuck then 1 else 0)
      && (s.stuck ==> Pieces(t, tok, false)[|s.pieces|] == t.unkID)
  {
  }

  /** The empty word has no pieces. */
  lemma EmptyWordHasNoPieces(t: Tokenizer)
    ensures PiecesAsWritten(t, [], false) == [] && Pieces(t, [], false) == []
  {
  }

  /** The inner loop of tokenizeWord: tries prefix lengths from the longest
      down and stops at the first key in the vocabulary. */
  method FindLongest(vocab: map<string, int>, tok: string, cont: bool)
    returns (found: bool, end: nat, cur: string, id: int)
    ensures found <==> LongestMatch(vocab, tok, cont).Some?
    ensures found ==> (LongestMatch(vocab, tok, cont) == Some(end) && end <= |tok|
      && cur == Candidate(tok[..end], cont) && cur in vocab && id == vocab[cur])
  {
    end := |tok|;
    cur := [];
    id := 0;
    found := false;
    while end > 0
      invariant 0 <= end <= |tok|
      invariant LongestFrom(vocab, tok, cont, end) == LongestMatch(vocab, tok, cont)
      decreases end
    {
      var sub := tok[..end];
      var candidate := if cont then "##" + sub else sub;
      if candidate in vocab {
        cur := candidate;
        id := vocab[candidate];
        found := true;
        return;
      }
      end := end - 1;
    }
  }

  /** The tokenizeWord loop: repeatedly take the longest prefix whose key
      (with "##" after the first piece) is in the vocabulary; stop with
      `unkID` when there is none. */
  method TokenizeWord(t: Tokenizer, word: string) returns (out: seq<int>)
    ensures out == PiecesAsWritten(t, word, false)
  {
    if word == [] {
      return [];
    }
    out := [];
    var tok := word;
    while |tok| > 0
      invariant out + PiecesAsWritten(t, tok, |out| > 0) == PiecesAsWritten(t, word, false)
      decreases |tok|, if |out| > 0 then 0 else 1
    {
      var cont := |out| > 0;
      var found, end, cur, id := FindLongest(t.vocab, tok, cont);
      if !found {
        WrittenStuck(t, tok, cont);
        out := out + [t.unkID];
        break;
      }
      WrittenStep(t, tok, cont, end);
      ghost var rest := tok[ConsumedAsWritten(cur)..];
      assert (out + [id]) + PiecesAsWritten(t, rest, true) == out + PiecesAsWritten(t, tok, cont);
      out := out + [id];
      if HasPrefix(cur, "##") {
        cur := cur[2..];
      }
      tok := tok[|cur|..];
      assert tok == rest;
    }
  }

  /** The Go loop on a word with no match emits `unkID` and stops. */
  lemma WrittenStuck(t: Tokenizer, tok: string, cont: bool)
    requires tok != [] && LongestMatch(t.vocab, tok, cont).None?
    ensures PiecesAsWritten(t, tok, cont) == [t.unkID]
  {
  }

  /** The Go loop on a word with a longest match emits the key's id and goes
      on after the bytes it consumes. */
  lemma WrittenStep(t: Tokenizer, tok: string, cont: bool, e: nat)
    requires tok != [] && LongestMatch(t.vocab, tok, cont) == Some(e)
    ensures var key := Candidate(tok[..e], cont);
      key in t.vocab && ConsumedAsWritten(key) <= |tok|
      && PiecesAsWritten(t, tok, cont) == [t.vocab[key]] + PiecesAsWritten(t, tok[ConsumedAsWritten(key)..], true)
  {
  }

  // ---------------------------------------------------------------- vocabulary

  /** The id of a special token, or its default when the vocabulary lacks it. */
  function Lookup(vocab: map<string, int>, tok: string, default: int): int {
    if tok in vocab then vocab[tok] else default
  }

  /** Every line with its surrounding whitespace removed. */
  function StripAll(lines: seq<string>): (r: seq<string>)
    ensures |r| == |lines| && forall j :: 0 <= j < |lines| ==> r[j] == Strip(lines[j])
  {
    if lines == [] then [] else [Strip(lines[0])] + StripAll(lines[1..])
  }

  /** Adding the first occurrence at index i keeps the map exact. */
  lemma FirstIndexStep(vp: map<string, int>, tl: seq<string>, i: nat)
    requires i < |tl| && FirstIndexMap(vp, tl, i)
    ensures tl[i] != [] && tl[i] !in vp ==> FirstIndexMap(vp[tl[i] := i], tl, i + 1)
    ensures tl[i] == [] || tl[i] in vp ==> FirstIndexMap(vp, tl, i + 1)
  {
  }

  /** `vp` maps every non-empty entry of `tl[..i]` to the index of its first
      occurrence, and holds nothing else. */
  predicate FirstIndexMap(vp: map<string, int>, tl: seq<string>, i: nat)
    requires i <= |tl|
  {
    (forall tok :: tok in vp ==>
      tok != [] && 0 <= vp[tok] < i && tl[vp[tok]] == tok
      && forall j :: 0 <= j < vp[tok] ==> tl[j] != tok)
    && (forall j :: 0 <= j < i && tl[j] != [] ==> tl[j] in vp)
  }

  /** Builds the vocabulary from the text of vocab.txt: every non-blank
      trimmed line maps to the 0-based index of the first line that holds it;
      blank lines still count towards the index. */
  method LoadWordPiece(content: string) returns (t: Tokenizer)
    ensures var tl := StripAll(Split(content, '\n'));
      (forall tok :: tok in t.vocab ==>
        tok != [] && 0 <= t.vocab[tok] < |tl| && tl[t.vocab[tok]] == tok
        && forall j :: 0 <= j < t.vocab[tok] ==> tl[j] != tok)
      && (forall i :: 0 <= i < |tl| && tl[i] != [] ==> tl[i] in t.vocab)
    ensures t.unkID == Lookup(t.vocab, "[UNK]", 100) && t.clsID == Lookup(t.vocab, "[CLS]", 101)
    ensures t.sepID == Lookup(t.vocab, "[SEP]", 102) && t.padID == Lookup(t.vocab, "[PAD]", 0)
  {
    var lines := Split(content, '\n');
    ghost var tl := StripAll(lines);
    var vp: map<string, int> := map[];
    var i := 0;
    while i < |lines|
      invariant 0 <= i <= |lines|
      invariant FirstIndexMap(vp, tl, i)
    {
      var tok := Strip(lines[i]);
      assert tok == tl[i];
      FirstIndexStep(vp, tl, i);
      if tok != [] && tok !in vp {
        vp := vp[tok := i];
      }
      i := i + 1;
    }
    t := Tokenizer(vp, Lookup(vp, "[UNK]", 100), Lookup(vp, "[CLS]", 101),
                   Lookup(vp, "[SEP]", 102), Lookup(vp, "[PAD]", 0));
  }
}
