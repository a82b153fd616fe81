# Alice local AI backends — a verified Dafny model

Alice ships two local backends that serve the same three features: speech-to-text (STT), text-to-speech (TTS) and text embeddings. One backend is written in Go (Whisper.cpp, Piper, a MiniLM ONNX model). The other is written in Python (faster-whisper, Kokoro, sentence-transformers), together with a runtime package installer.

This project models the sequential logic of both backends and proves what that logic promises:

- the WordPiece tokenizer and the [CLS]/[SEP] encoder;
- the two top-K similarity searches;
- the 16-bit PCM and WAV byte codecs, including an encode/decode round trip;
- the voice tables and voice resolution;
- the lifecycle of every service (ready flags, idempotent initialisation, cleanup);
- the Python package installer's decision tree and its requirements parser;
- the two orchestrators;
- the Go configuration and asset-path tables.

Layout, one module per source component:

| file | module | models |
|---|---|---|
| wrappers.dfy | Wrappers | `Option` / `Result` |
| text.dfy | Text | the string library the sources rely on: ASCII white space, Go `strings.TrimSpace` / Python `strip`, the `\s+` collapse, fields, split/join, substring search, byte-wise string order |
| pcm.dfy | Pcm | little-endian int16/int32, clamping and float→int16 truncation, the canonical 44-byte WAV header and its parser |
| wordpiece.dfy | WordPiece | `basicTokens`, `tokenizeWord`, `loadWordPiece` |
| onnx_embeddings.dfy | OnnxEmbeddings | `encode`, `batchTokenize`, `ComputeSimilarity`, `SearchSimilar`, `keys` of the ONNX service |
| search.dfy | Search | the exchange sort on two parallel arrays and the top-K cut shared by both Go searches |
| minilm.dfy | MiniLM | the placeholder Go embedding service |
| piper_audio.dfy, piper.dfy | PiperAudio, Piper | the Piper TTS service: voices, voice resolution, placeholder WAV, path normalisation, voice downloads |
| whisper.dfy | Whisper | the Whisper STT service: defaults, sample decoding, WAV writing, command line, retry schedule, error mapping |
| api_stt.dfy | ApiStt | the Go STT HTTP handler |
| assets.dfy | Assets | platform info, archive names, asset paths |
| config.dfy | AppConfig | the Go environment configuration |
| models.dfy | Models | the Go `Manager` |
| installer.dfy | Installer | the Python `RuntimeInstaller` |
| py_embeddings.dfy, py_tts.dfy, py_stt.dfy, py_main.dfy | PyEmbeddings, PyTts, PyStt, PyMain | the three Python services and the FastAPI lifespan/endpoints |

How the outside world is modelled:

- Every external outcome is a parameter of the method that depends on it. This covers:
  - whether a file exists or a directory could be created;
  - whether a download, an unzip or a `pip` run succeeded;
  - what an import test did;
  - whether a model constructor raised;
  - what torch reports about CUDA/MPS;
  - the transcript a binary wrote;
  - the voices and segments a pipeline produced.
- The operating system and architecture are parameters of the Go path functions.
- The environment is a `map<string, string>`.
- Scores and samples are exact `real`s. Where the source converts a float to an int16, the model truncates toward zero, as both Go `int16(f)` and Python `int(f)` do.
- Characters are treated as bytes.
- Go objects with `ready`/`status` fields and Python objects with `_initialized`/model fields are Dafny classes whose methods state their whole new state. In-place slice algorithms (the exchange sort, the sample loops, filling the PCM buffers) work on Dafny arrays.

Behaviour of the code that the model keeps, even where it is surprising:

- **Python STT service.** python/services/stt.py passes `lambda: _import_faster_whisper()` as its import test, but that name is not defined in the file. The test raises `NameError`, and the installer's catch-all turns that into `False`. So `STTService.initialize` succeeds only when `faster-whisper` is already marked installed. In `lifespan` that happens only through the bulk install (`PyStt.WhisperTestNeverSucceeds`, `PyStt.STTService.Initialize`, `PyMain.Backend.Startup`).
- **Python `download_model`.** It registers a service whenever the install succeeded and the service is enabled and absent, whatever `initialize` returned (`PyMain.Backend.DownloadModel`).
- **Whisper error mapping.** A missing Whisper binary produces "no whisper binary found - please install whisper.cpp". That text does not contain "binary not found", so it reaches the client as an error rather than as the setup-incomplete message (`Whisper.MissingBinaryIsError`, `Whisper.NoBinaryLacksSetupWords`).
- **Go similarity.** backend/internal/minilm/embeddings.go divides the dot product by the product of the two SQUARED magnitudes, with no square root. `MiniLM.SelfSimilarity` shows the consequence: the similarity of a vector with itself is 1/|a|², e.g. 0.25 for [2].
- **Go `Manager.Initialize`.** Every Go service's `Initialize` returns nil, so `Manager.Initialize` never takes its abort path. Its contract therefore states that it always succeeds.

## Model

| member | source | states |
|---|---|---|
| Text.Strip | backend/internal/whisper/stt.go:266-276 | the result has no white space at either end, is empty exactly when the input is all white space, and leaves an already stripped string unchanged |
| Text.Normalize | python/services/embeddings.py:202-209 | strip plus the `\s+` → " " collapse: the result is stripped and collapsed, empty exactly for blank input, and a fixed point on normalised input |
| Text.NormalizeKeepsText | python/services/embeddings.py:202-209 | normalising drops only white space: the non-space characters are exactly those of the input, in order |
| Text.CollapseIdempotent | python/services/tts.py:210-223 | collapsing a string without white-space runs changes nothing |
| Text.SplitJoin | backend/internal/minilm/onnx_embeddings.go:649 | splitting on a separator and joining with it gives back the input |
| Text.RunsConcat | backend/internal/minilm/onnx_embeddings.go:675-694 | concatenated, the maximal runs of kept characters are the input with every other character removed |
| WordPiece.BasicTokens | backend/internal/minilm/onnx_embeddings.go:675-694 | the tokens are exactly the maximal letter/digit runs of the lower-cased text; none is empty and every character of every token is alphanumeric |
| WordPiece.BasicTokensKeepAlnum | backend/internal/minilm/onnx_embeddings.go:675-694 | concatenated, the tokens are the lower-cased text with every non-alphanumeric character removed: nothing is lost or invented |
| WordPiece.LongestFrom | backend/internal/minilm/onnx_embeddings.go:706-719 | the match found is the longest prefix (up to `end`) whose key, with "##" for continuations, is in the vocabulary; none means no prefix matches |
| WordPiece.Segment | backend/internal/minilm/onnx_embeddings.go:696-731 | the greedy segmentation: non-empty pieces whose concatenation is a prefix of the word, each key in the vocabulary with "##" on all but the first, covering the whole word unless it stops where no prefix of the rest matches |
| WordPiece.PieceIds | backend/internal/minilm/onnx_embeddings.go:708-716 | one id per piece, the vocabulary id of its key |
| WordPiece.Pieces | backend/internal/minilm/onnx_embeddings.go:696-731 | the intended ids of a word: one per piece of the longest-match segmentation, then `unkID` when stuck (its properties are proved in `PiecesStep` and `PiecesCoverWord`) |
| WordPiece.PiecesAsWritten | backend/internal/minilm/onnx_embeddings.go:696-731 | the ids the loop yields as written, with "##" cut from the first key too (`TokenizeWord` is proved equal to it; `FirstPieceWithHashesRepeats` shows where it departs from `Pieces`) |
| WordPiece.PiecesStep | backend/internal/minilm/onnx_embeddings.go:702-728 | for a non-empty word: no match gives exactly `[unkID]`, keeping nothing else; a match gives its id followed by the continuation pieces of the rest |
| WordPiece.PiecesCoverWord | backend/internal/minilm/onnx_embeddings.go:696-731 | every piece consumes at least one byte; the ids are one per piece plus one trailing `unkID` exactly when the segmentation got stuck |
| WordPiece.EmptyWordHasNoPieces | backend/internal/minilm/onnx_embeddings.go:697-699 | the empty word yields no ids |
| WordPiece.FindLongest | backend/internal/minilm/onnx_embeddings.go:706-719 | the inner loop that shrinks `end`: it finds a piece iff the longest match exists, and returns that length, its key and its id |
| WordPiece.TokenizeWord | backend/internal/minilm/onnx_embeddings.go:696-731 | the nested loops compute `PiecesAsWritten`, the source's own definition including its "##" stripping |
| WordPiece.WrittenStuck | backend/internal/minilm/onnx_embeddings.go:720-723 | as written, a word with no matching prefix yields `[unkID]` alone |
| WordPiece.WrittenStep | backend/internal/minilm/onnx_embeddings.go:724-728 | as written, a match emits its id and continues after the number of bytes the stripped key covers |
| WordPiece.PiecesAgreeWithoutHash | backend/internal/minilm/onnx_embeddings.go:724-728 | on a word without '#' the source's loop and the corrected definition give the same ids |
| WordPiece.FirstPieceWithHashesRepeats | backend/internal/minilm/onnx_embeddings.go:724-728 | with vocabulary {"##ab": 7}, the word "##ab" yields [7, 7] as written and [7] as intended |
| WordPiece.StripAll | backend/internal/minilm/onnx_embeddings.go:649-652 | every line is trimmed, and there is one trimmed line per line |
| WordPiece.FirstIndexStep | backend/internal/minilm/onnx_embeddings.go:651-659 | one loop step keeps the first-index invariant: a new non-blank token is added with its line number; a blank or known token leaves the map unchanged |
| WordPiece.LoadWordPiece | backend/internal/minilm/onnx_embeddings.go:644-673 | each vocabulary token is a non-blank trimmed line, mapped to the 0-based index of its first occurrence, so blank lines count and duplicates keep the first id; every non-blank line is present; the special ids default to 100/101/102/0 when absent |
| OnnxEmbeddings.Window | backend/internal/minilm/onnx_embeddings.go:293-305 | exactly `maxLen` ids: the sequence's own where it reaches, 0 after |
| OnnxEmbeddings.MaskOf | backend/internal/minilm/onnx_embeddings.go:293-305 | exactly `maxLen` entries, 1 iff the position is before the sequence's end and 0 iff at or after it |
| OnnxEmbeddings.PiecesNotEmpty | backend/internal/minilm/onnx_embeddings.go:696-731 | a non-empty word always yields at least one id |
| OnnxEmbeddings.WordIdsAtLeastWords | backend/internal/minilm/onnx_embeddings.go:285-289 | a text of w non-empty words has at least w piece ids |
| OnnxEmbeddings.EncodeFraming | backend/internal/minilm/onnx_embeddings.go:284-306 | the first id is [CLS]; [SEP] ends the ids when the framed sequence fits; at least `maxLen - 1` words push it past `maxLen`, and then the ids are its first `maxLen` (no [SEP]) with a full mask |
| OnnxEmbeddings.Encode | backend/internal/minilm/onnx_embeddings.go:284-306 | ids are [CLS] + the pieces of every basic token + [SEP], cut to `maxLen` and padded with 0 (`padID` unused); the mask is 1 exactly on the kept positions |
| OnnxEmbeddings.TextIds | backend/internal/minilm/onnx_embeddings.go:285-289 | the loop over the basic tokens appends each token's pieces in order |
| OnnxEmbeddings.Pad | backend/internal/minilm/onnx_embeddings.go:293-305 | truncating and filling the two zeroed buffers gives the cut and padded window and its mask |
| OnnxEmbeddings.BatchTokenize | backend/internal/minilm/onnx_embeddings.go:274-282 | one id row and one mask row per text, in order, each the encoding of that text |
| OnnxEmbeddings.ComputeSimilarity | backend/internal/minilm/onnx_embeddings.go:309-325 | unequal lengths and empty vectors are errors; otherwise the result is the dot product |
| OnnxEmbeddings.DotScores | backend/internal/minilm/onnx_embeddings.go:342-352 | one score per candidate, its dot product with the query |
| OnnxEmbeddings.SearchSimilar | backend/internal/minilm/onnx_embeddings.go:328-370 | empty query, empty candidates and the first candidate of the wrong length (by index) are errors; otherwise the result is the top `k` (k = 5 when `topK <= 0`) of the dot scores |
| OnnxEmbeddings.Insert | backend/internal/minilm/onnx_embeddings.go:625-632 | inserting a new key into a sorted list keeps it strictly sorted and adds exactly that key |
| OnnxEmbeddings.Keys | backend/internal/minilm/onnx_embeddings.go:625-632 | the keys of the map, each once, in a fixed (sorted) order |
| Search.DotSymmetric | backend/internal/minilm/onnx_embeddings.go:319-322 | the dot product is symmetric |
| Search.SquaredNormNonNegative | backend/internal/minilm/embeddings.go:140-146 | a vector's dot product with itself is never negative |
| Search.DotSnoc | backend/internal/minilm/embeddings.go:134-138 | the dot product over one more coordinate adds that coordinate's product |
| Search.Dot | backend/internal/minilm/onnx_embeddings.go:319-322 | the accumulation loop computes the dot product |
| Search.SwapKeepsDominance | backend/internal/minilm/onnx_embeddings.go:355-362 | swapping position i with a later one keeps the sorted-prefix invariant |
| Search.ExchangeSortDesc | backend/internal/minilm/onnx_embeddings.go:354-362 | the in-place sort of the two parallel arrays leaves the scores non-increasing, every score still paired with its candidate's index, the indices distinct and a permutation of the input |
| Search.SelectInto | backend/internal/minilm/onnx_embeddings.go:356-361 | one pass of the inner loop puts a maximum of the remainder at position i, keeping pairing, distinctness and the permutation |
| Search.SwapBoth | backend/internal/minilm/onnx_embeddings.go:357-360 | the swap exchanges positions i and j in both arrays together |
| Search.Range | backend/internal/minilm/onnx_embeddings.go:342-352 | the initial index array is 0..n-1 |
| Search.Rank | backend/internal/minilm/onnx_embeddings.go:342-369 | the result has min(k, n) entries, non-increasing, distinct indices, each score its candidate's, and no candidate left out scores higher than one kept |
| Search.ExcludedAreNotBetter | backend/internal/minilm/onnx_embeddings.go:354-369 | after the sort, every candidate outside the first m scores at most each kept score |
| Search.EffectiveTopK | backend/internal/minilm/onnx_embeddings.go:337-339 | a non-positive `topK` becomes 5; a positive one is kept |
| Search.FirstMismatch | backend/internal/minilm/onnx_embeddings.go:345-349 | the index of the first candidate whose length differs from the query's, or none when all agree |
| MiniLM.Placeholder | backend/internal/minilm/embeddings.go:94-100 | the placeholder embedding has `Dimension` entries, entry i being 0.1·i |
| MiniLM.FirstEmpty | backend/internal/minilm/embeddings.go:113-121 | the first empty text, or none when no text is empty |
| MiniLM.SimilaritySymmetric | backend/internal/minilm/embeddings.go:125-153 | the Go similarity is symmetric |
| MiniLM.SelfSimilarity | backend/internal/minilm/embeddings.go:140-152 | with squared magnitudes, a vector's similarity with itself is 1/(a·a), e.g. 0.25 for [2], not 1 |
| MiniLM.EmbeddingService.constructor | backend/internal/minilm/embeddings.go:37-50 | a new service is not ready, with status "initializing" |
| MiniLM.EmbeddingService.Initialize | backend/internal/minilm/embeddings.go:53-65 | sets ready and "ready", returns nil |
| MiniLM.EmbeddingService.Shutdown | backend/internal/minilm/embeddings.go:201-210 | clears ready and sets "stopped", returns nil |
| MiniLM.EmbeddingService.GenerateEmbedding | backend/internal/minilm/embeddings.go:85-101 | not ready and empty text are errors; otherwise exactly `Dimension` values, the placeholder |
| MiniLM.EmbeddingService.GenerateEmbeddings | backend/internal/minilm/embeddings.go:104-122 | not ready and an empty list are errors; the first empty text fails the whole batch, and the error names its index; otherwise one embedding per text, in order |
| MiniLM.EmbeddingService.ComputeSimilarity | backend/internal/minilm/embeddings.go:125-153 | unequal or zero lengths are errors; otherwise the squared-magnitude similarity (0 for a zero vector) |
| MiniLM.EmbeddingService.SearchSimilar | backend/internal/minilm/embeddings.go:156-198 | the same contract as the ONNX search, over the Go similarity scores |
| MiniLM.SimilarityScores | backend/internal/minilm/embeddings.go:170-180 | one score per candidate, its similarity with the query |
| Pcm.DecodeLE16 | backend/internal/whisper/stt.go:181-182 | decoding two bytes gives the int16 whose little-endian bytes they are |
| Pcm.LE16RoundTrip | backend/internal/api/stt.go:68-72 | the low/high bytes of any int16 decode back to it |
| Pcm.LE32RoundTrip | backend/internal/whisper/stt.go:292-322 | the 4-byte field decodes to the value modulo 2^32 |
| Pcm.Clamp | backend/internal/api/stt.go:60-65 | the result is in [-1, 1], equals x inside that range and the nearest bound outside it |
| Pcm.Trunc | backend/internal/api/stt.go:68 | truncation toward zero, from both sides |
| Pcm.Quantize | backend/internal/api/stt.go:60-68 | the int16 lies in [-32767, 32767], keeps the sign, and is within 1 of 32767·clamp(x) |
| Pcm.Dequantize | backend/internal/whisper/stt.go:181-182 | v/32768 lies in [-1, 1) |
| Pcm.QuantizeSaturates | backend/internal/api/stt.go:60-65 | every sample at or above 1.0 encodes as 1.0 does (32767), at or below -1.0 as -1.0 does |
| Pcm.RequantizeLosesOne | backend/internal/whisper/stt.go:181-182 | decoding to v/32768 and encoding again moves a non-zero int16 one step toward zero |
| Pcm.Ascii | backend/internal/whisper/stt.go:292-322 | a tag is written byte for byte |
| Pcm.WavHeader | backend/internal/piper/tts.go:277-324 | the canonical mono 16-bit PCM header is 44 bytes long |
| Pcm.WavHeaderFields | backend/internal/whisper/stt.go:292-322 | the canonical header carries the four tags and parses back to RIFF size 36+2n, fmt size 16, PCM, mono, the rate, byte rate 2·rate, block align 2, 16 bits and data size 2n (each mod 2^32) |
| Pcm.ParseFields | backend/internal/whisper/stt.go:292-322 | a header with these field encodings parses to their values |
| Pcm.WavHeaderTags | backend/internal/piper/tts.go:277-324 | "RIFF", "WAVE", "fmt " and "data" sit at offsets 0, 8, 12 and 36 |
| Pcm.WavHeaderSlices | backend/internal/piper/tts.go:277-324 | each numeric field sits at its offset, little endian |
| Pcm.WavHeaderSmallFields | backend/internal/piper/tts.go:277-324 | the constant fields are the bytes 16 0 0 0, 1 0, 1 0, 2 0 and 16 0 |
| Pcm.SampleBytes | backend/internal/api/stt.go:68-72 | two bytes per sample, low byte first |
| Pcm.SampleBytesUnique | backend/internal/api/stt.go:68-72 | any buffer holding each sample's two bytes at 2i and 2i+1 is that encoding |
| Pcm.SampleBytesRoundTrip | backend/internal/whisper/stt.go:181-182 | reading bytes 2k and 2k+1 of the encoding recovers every int16: the Whisper decoder inverts the handler's encoder |
| Pcm.SampleBytesAppend | backend/internal/api/stt.go:68-72 | encoding one more sample appends its two little-endian bytes |
| Pcm.QuantizeAll | backend/internal/api/stt.go:58-68 | one int16 per sample, each the quantisation of that sample |
| Whisper.WithDefaults | backend/internal/whisper/stt.go:52-57 | language and model path are kept; a zero sample rate or voice threshold is replaced and a non-zero one kept, so neither is zero afterwards |
| Whisper.DefaultsIdempotent | backend/internal/whisper/stt.go:52-57 | applying the defaults twice changes nothing; the defaults are 16000 Hz and 0.02 |
| Whisper.OutputBaseNamesOutputFile | backend/internal/whisper/stt.go:233-256 | the `-of` base passed to the binary plus ".txt" is the file the transcript is read from |
| Whisper.JoinKeepsSuffix | backend/internal/whisper/stt.go:233-235 | joining a directory and a file name keeps the name's suffix |
| Whisper.WhisperArgs | backend/internal/whisper/stt.go:246-256 | the seven fixed arguments in order, followed by `-l <language>` exactly when a language is chosen (not empty, not "auto") |
| Whisper.LanguageFlagIffChosen | backend/internal/whisper/stt.go:246-256 | when no path is literally "-l", the command line contains "-l" iff a language is passed |
| Whisper.FirstExisting | backend/internal/whisper/stt.go:220-225 | the index of the first existing path, or none iff no path exists |
| Whisper.FindBinary | backend/internal/whisper/stt.go:220-225 | the search loop returns the first existing path, or "" when none exists |
| Whisper.FallbackNonEmpty | backend/internal/whisper/stt.go:204-218 | no fallback path is empty, so "" always means "not found" |
| Whisper.WavFileHeader | backend/internal/whisper/stt.go:280-339 | the file written has 44 + 2n bytes and a header that parses back to 16 kHz mono 16-bit PCM with RIFF size 36+2n and data size 2n |
| Whisper.HeaderAsWrittenIsWavHeader | backend/internal/whisper/stt.go:292-322 | the field-by-field header that writeWAVFile emits is the canonical header at 16000 Hz |
| Whisper.WavFileStep | backend/internal/whisper/stt.go:325-336 | writing one more sample appends its quantised little-endian bytes |
| Whisper.AttemptError | backend/internal/whisper/stt.go:491-531 | an attempt succeeds iff the file was fetched and holds at least 1000 bytes |
| Whisper.Backoffs | backend/internal/whisper/stt.go:491-531 | the waits between attempts, one per retry, the k-th (from 0) being 2·2^k seconds: 2, 4, 8, … |
| Whisper.BackoffDoubles | backend/internal/whisper/stt.go:491-531 | each wait is twice the one before |
| Whisper.TotalBackoff | backend/internal/whisper/stt.go:491-531 | m waits add up to 2·2^m − 2 seconds, 6 for the two waits of three attempts |
| Whisper.DownloadFileWithRetry | backend/internal/whisper/stt.go:491-531 | at most `maxRetries` attempts; success iff some attempt succeeds, and then it is the first successful one; failure after all attempts, naming the last error; the waits are the backoff schedule |
| Whisper.STTService.constructor | backend/internal/whisper/stt.go:51-75 | a new service is not ready, "initializing", with the defaults applied |
| Whisper.STTService.EnsureModel | backend/internal/whisper/stt.go:342-374 | an empty model path becomes the default; an existing model is accepted; otherwise a failed mkdir or download is reported with its message, and the call succeeds iff the model exists or both steps succeed |
| Whisper.STTService.Initialize | backend/internal/whisper/stt.go:78-112 | always succeeds and becomes ready; the model path comes from the asset manager unless asset extraction failed and a path was configured; the other settings are kept |
| Whisper.STTService.Shutdown | backend/internal/whisper/stt.go:767-776 | not ready, "stopped", nil, configuration kept |
| Whisper.STTService.ConvertAudioToSamples | backend/internal/whisper/stt.go:169-186 | odd byte counts are rejected; otherwise one sample per byte pair, the int16 divided by 32768 |
| Whisper.STTService.WriteWAVFile | backend/internal/whisper/stt.go:280-339 | a file that cannot be created is an error; otherwise the bytes are header plus samples |
| Whisper.STTService.TranscribeWithWhisper | backend/internal/whisper/stt.go:189-277 | the binary runs iff the model exists, a binary was found and the temp file could be created, with the command derived from the configuration; a transcript is returned stripped |
| Whisper.STTService.TranscribeAudio | backend/internal/whisper/stt.go:132-166 | not ready, empty and odd-length audio are errors in that order; otherwise the Whisper result mapped through the setup-message rule |
| Whisper.SetupMapping | backend/internal/whisper/stt.go:152-163 | a transcript passes through; an error becomes the setup-incomplete text as success iff it mentions a missing model or binary, else a "transcription failed: " error |
| Whisper.MissingModelReportsSetup | backend/internal/whisper/stt.go:152-163 | a missing model reaches the caller as the setup-incomplete text, as success |
| Whisper.MissingBinaryIsError | backend/internal/whisper/stt.go:152-163 | a missing binary (model present) reaches the caller as an error with the no-binary message |
| Whisper.NoBinaryLacksSetupWords | backend/internal/whisper/stt.go:228-230 | the no-binary message contains neither "model not found" nor "binary not found" |
| Whisper.TranscriptPassesThrough | backend/internal/whisper/stt.go:152-163 | when every step succeeds the caller receives the stripped transcript |
| ApiStt.EncodeSamples | backend/internal/api/stt.go:58-72 | the sample loop writes 2 bytes per sample, the little-endian quantised sample |
| ApiStt.EncodeDecodeRoundTrip | backend/internal/api/stt.go:68-72 | decoding byte pair k of the encoded body gives back the quantisation of sample k |
| ApiStt.EncodingSaturates | backend/internal/api/stt.go:60-65 | bodies whose samples agree after clamping encode to the same bytes |
| ApiStt.TranscribeAudio | backend/internal/api/stt.go:26-112 | disabled and not-ready give 503; each malformed JSON or form body gives its own 400/500 without forwarding; a JSON body forwards its encoded samples and an upload its raw bytes, and the response is the service's answer |
| ApiStt.ReadBody | backend/internal/api/stt.go:44-97 | the body's audio, or the error response for each malformed case; non-empty JSON yields a non-empty even-length buffer |
| ApiStt.Forward | backend/internal/api/stt.go:101-111 | the response for empty, odd and well-formed audio: the service's error or its mapped result |
| Piper.ByName | backend/internal/piper/tts.go:122-157 | the map holds exactly the voices' names, each mapped to a voice of that name from the list |
| Piper.CatalogTable | backend/internal/piper/tts.go:122-157 | the three built-in voices are registered under their own names and nothing else |
| Piper.RequestedVoice | backend/internal/piper/tts.go:199-204 | the request's voice, else the configured one, else en_US-amy-medium |
| Piper.EnglishVoiceResolves | backend/internal/piper/tts.go:206-235 | whenever some English voice is loaded, resolution always finds a loaded voice |
| Piper.Resolves | backend/internal/piper/tts.go:206-235 | a resolved selection is a loaded voice, and resolution fails only when neither the name nor the default is loaded |
| Piper.NormalizePiperPath | backend/internal/piper/tts.go:455-466 | an empty path becomes bin/piper (bin/piper.exe on Windows); on Windows ".exe" is added when missing; everything else is kept |
| Piper.NormalizeIdempotent | backend/internal/piper/tts.go:455-466 | normalising twice equals normalising once |
| Piper.AssetPathIsNormal | backend/internal/piper/tts.go:455-466 | the asset manager's piper path is already normal, so ensurePiper leaves it as it is |
| Piper.VoiceDownloads | backend/internal/piper/tts.go:934-976 | an unknown voice is an error naming it; a known one downloads the .onnx model and its .onnx.json config into the model directory |
| Piper.DownloadsUseUSMirror | backend/internal/piper/tts.go:951-961 | every voice in the download table comes from the en_US mirror |
| Piper.DownloadTableIsCatalog | backend/internal/piper/tts.go:939-943 | the download table knows exactly the voices of the built-in catalogue |
| Piper.TTSService.constructor | backend/internal/piper/tts.go:65-84 | a new service is not ready, "initializing", with no voices and en_US-amy-medium as default |
| Piper.TTSService.LoadVoices | backend/internal/piper/tts.go:122-157 | the voice map becomes the catalogue by name; nothing else changes |
| Piper.TTSService.EnsurePiper | backend/internal/piper/tts.go:453-527 | the path is normalised; success iff binary and data exist or the directory and download succeed; each failure with its message |
| Piper.TTSService.Initialize | backend/internal/piper/tts.go:87-119 | always succeeds and becomes ready with the catalogue loaded; the piper and model paths come from the asset manager unless extraction failed |
| Piper.TTSService.ResolveVoice | backend/internal/piper/tts.go:199-235 | the lookup agrees with the resolution rule: the name, else the default voice, else some English voice, else none |
| Piper.TTSService.Synthesize | backend/internal/piper/tts.go:190-253 | not ready and empty text are errors; "no voices available" exactly when resolution finds none; otherwise Piper's audio, or the placeholder WAV for the resolved voice's gender when the model or Piper fails; a valid ready service with text always succeeds |
| Piper.TTSService.SetDefaultVoice | backend/internal/piper/tts.go:884-896 | succeeds iff the voice is loaded and then makes it the default; otherwise reports it and keeps the old default |
| Piper.TTSService.GetDefaultVoice | backend/internal/piper/tts.go:877-881 | the current default voice, the one `SetDefaultVoice` last accepted (amy from the constructor otherwise) |
| Piper.TTSService.GetAvailableVoices | backend/internal/piper/tts.go:899-908 | every loaded voice name exactly once |
| Piper.TTSService.Shutdown | backend/internal/piper/tts.go:979-988 | not ready, "stopped", everything else kept |
| PiperAudio.WordCount | backend/internal/piper/tts.go:343-351 | the number of white-space separated words, at least 1 |
| PiperAudio.WordLength | backend/internal/piper/tts.go:343-351 | samples per word: n / words, but never below 1000 |
| PiperAudio.SpeechSamples | backend/internal/piper/tts.go:334-376 | n samples, each given by its word slot, pause or tail |
| PiperAudio.PlaceholderWav | backend/internal/piper/tts.go:256-331 | 44 header bytes plus 2 bytes per sample |
| PiperAudio.ShortAudioIsSilent | backend/internal/piper/tts.go:334-376 | at most 1000 samples leave no room for a word, so the audio is silence |
| PiperAudio.PlaceholderRateBytes | backend/internal/piper/tts.go:277-324 | the placeholder header records 22050 Hz and 44100 bytes per second |
| PiperAudio.WordSlot | backend/internal/piper/tts.go:355-369 | a word that fits sits at w·(spw + pause), its tone samples |
| PiperAudio.PauseSlot | backend/internal/piper/tts.go:355-369 | the pause after a word is silence |
| PiperAudio.TailSlot | backend/internal/piper/tts.go:372-375 | once the words are used up or the next one does not fit, the rest is silence |
| PiperAudio.GenerateSilence | backend/internal/piper/tts.go:438-442 | zeroes exactly the requested sample bytes |
| PiperAudio.GenerateWordAudio | backend/internal/piper/tts.go:379-435 | writes the word's tone samples in place and nothing else |
| PiperAudio.GenerateSpeechLikeAudio | backend/internal/piper/tts.go:334-376 | writes exactly the speech samples at the offset and nothing else |
| PiperAudio.RenderWord | backend/internal/piper/tts.go:355-369 | one iteration of the word loop extends the written prefix by a word and its (possibly cut) pause |
| PiperAudio.RenderWave | backend/internal/piper/tts.go:355-369 | the word part of one iteration |
| PiperAudio.RenderPause | backend/internal/piper/tts.go:355-369 | the pause part of one iteration, cut at the end of the buffer |
| PiperAudio.FillTail | backend/internal/piper/tts.go:372-375 | the remaining samples become silence |
| PiperAudio.Put | backend/internal/piper/tts.go:277-324 | copying the header bytes into the buffer changes exactly that range |
| PiperAudio.GeneratePlaceholderWAV | backend/internal/piper/tts.go:256-331 | a fresh buffer holding the placeholder WAV: the 22050 Hz header followed by the speech-like samples |
| Assets.JoinPath | backend/internal/embedded/assets.go:430-448 | "" and "." add nothing; otherwise the result starts with the directory and a slash and ends with the name |
| Assets.GetPlatformInfo | backend/internal/embedded/assets.go:41-66 | main.exe / piper.exe on Windows and main / piper elsewhere, the base Whisper model and the built-in voice list |
| Assets.PiperArchive | backend/internal/embedded/assets.go:167-199 | a zip for Windows, a macos or linux tarball otherwise; an unknown OS leaves only the directory |
| Assets.WhisperArchivesDistinct | backend/internal/embedded/assets.go:149-150 | distinct platforms (OS names without '_') name distinct Whisper archives |
| Assets.WhisperArchive | backend/internal/embedded/assets.go:149-150 | `assets/whisper/whisper_<os>_<arch>.zip`: the fixed prefix, the ".zip" suffix and exactly the two names between |
| Assets.ExtractWhisperAssets | backend/internal/embedded/assets.go:148-164 | a missing archive is an error naming the platform; otherwise the unzip result |
| Assets.ExtractPiperAssets | backend/internal/embedded/assets.go:167-199 | a missing archive is an error naming the platform; otherwise unzip on Windows and untar elsewhere |
| Assets.AssetManager.constructor | backend/internal/embedded/assets.go:108-113 | the base directory is kept and the cache is empty |
| Assets.AssetManager.GetAssetPath | backend/internal/embedded/assets.go:404-407 | a path iff the asset is cached; nothing ever fills the cache, so it always reports absent |
| Assets.AssetManager.GetBinaryPath | backend/internal/embedded/assets.go:410-427 | "whisper" and "piper" become the platform binary under bin; any other name stays as it is under bin |
| Assets.AssetManager.GetModelPath | backend/internal/embedded/assets.go:430-443 | "whisper" becomes whisper-base.bin under models; any other name stays as it is under models |
| Assets.AssetManager.GetVoiceModelPath | backend/internal/embedded/assets.go:446-448 | the path ends with `<voice>.onnx` |
| Assets.AssetManager.EnsureAssets | backend/internal/embedded/assets.go:116-145 | only the two mkdir failures are errors, each with its message; extraction failures are logged and ignored |
| Assets.WorkingDirectoryBinaries | backend/internal/embedded/assets.go:410-427 | relative to ".", the binaries are bin/main and bin/piper (with .exe on Windows) |
| Assets.WorkingDirectoryModels | backend/internal/embedded/assets.go:430-443 | relative to ".", the Whisper model is models/whisper-base.bin and the Piper directory models/piper |
| Assets.WorkingDirectoryVoiceModel | backend/internal/embedded/assets.go:446-448 | relative to ".", a voice model is models/piper/<voice>.onnx |
| Assets.MainAliasesWhisper | backend/internal/embedded/assets.go:410-427 | off Windows, asking for "main" gives the same path as "whisper" |
| AppConfig.GetEnv | backend/internal/config/config.go:75-80 | the variable's value when set and non-empty, else the default |
| AppConfig.ParseBool | backend/internal/config/config.go:83-90 | true exactly for 1, t, T, TRUE, true, True and false exactly for 0, f, F, FALSE, false, False, none otherwise |
| AppConfig.GetBoolEnv | backend/internal/config/config.go:83-90 | the parsed value when it parses, else the default |
| AppConfig.LoadConfig | backend/internal/config/config.go:50-71 | a set, non-empty variable gives its field; the port and the three model paths are never empty |
| AppConfig.EmptyEnvironmentDefaults | backend/internal/config/config.go:50-72 | without variables: port 8765, the three ./models paths and every service enabled |
| AppConfig.EmptyValueIsUnset | backend/internal/config/config.go:75-90 | a variable set to "" behaves as unset |
| AppConfig.UnparsableFlagKeepsDefault | backend/internal/config/config.go:83-90 | ENABLE_STT=yes does not parse and leaves STT enabled |
| AppConfig.FieldsAreIndependent | backend/internal/config/config.go:50-72 | each field depends on its own variable only |
| Models.ShutdownReportsFailures | backend/internal/models/manager.go:113-145 | shutdown reports an error iff some service failed, with one message per failure |
| Models.ShutdownErrors | backend/internal/models/manager.go:113-145 | one labelled message per failing service, the STT one first and the embeddings one last |
| Models.ShutdownReport | backend/internal/models/manager.go:113-145 | no error iff the list is empty, otherwise "shutdown errors: [...]" |
| Models.Manager.constructor | backend/internal/models/manager.go:25-29 | the configuration is kept and no service exists |
| Models.Manager.GetStatus | backend/internal/models/manager.go:148-159 | the three keys, each true iff that service exists and is ready |
| Models.Manager.Initialize | backend/internal/models/manager.go:32-89 | every enabled service is created fresh and ready (Whisper in English at 16 kHz, Piper with en_US-amy-medium, MiniLM with 384 dimensions), the others stay absent, and the status mirrors the configuration |
| Models.Manager.Shutdown | backend/internal/models/manager.go:113-145 | every existing service is stopped and the status is all false |
| Installer.FindFirst | python/utils/runtime_installer.py:136-141 | the position found is the first occurrence of the separator, none iff it does not occur |
| Installer.ParseLine | python/utils/runtime_installer.py:132-143 | blank and comment lines give nothing; every other line gives an entry |
| Installer.AddLine | python/utils/runtime_installer.py:134-143 | one line of the requirements file applied to the table (stated in `AddLineSets`) |
| Installer.SpecsOf | python/utils/runtime_installer.py:125-150 | the table of a whole file, line by line (stated in `SpecsStripped`, `LastLineWins` and `SpecsSnoc`) |
| Installer.PlainLineMapsToItself | python/utils/runtime_installer.py:142-143 | a line without ">=" or "==" maps its stripped text to itself |
| Installer.SpecsStripped | python/utils/runtime_installer.py:132-143 | every package name in the table is stripped |
| Installer.LastLineWins | python/utils/runtime_installer.py:132-143 | a later line for the same package overrides the earlier one; a skipped line changes nothing |
| Installer.SpecsSnoc | python/utils/runtime_installer.py:132-143 | reading one more line applies that line to the table read so far |
| Installer.AddLineSets | python/utils/runtime_installer.py:134-143 | the line's entry is in the table afterwards, or the table is unchanged for a skipped line |
| Installer.GetPackageSpecs | python/utils/runtime_installer.py:125-150 | no requirements file gives an empty table; otherwise the table its lines define |
| Installer.ApplyLine | python/utils/runtime_installer.py:133-143 | one loop step applies one line |
| Installer.SpecFor | python/utils/runtime_installer.py:89-95 | the package's non-empty spec, else its bare name |
| Installer.RuntimeInstaller.constructor | python/utils/runtime_installer.py:23-26 | nothing is marked installed |
| Installer.RuntimeInstaller.EnsurePackageInstalled | python/utils/runtime_installer.py:28-83 | a marked package succeeds at once; otherwise success follows the import-test / pip decision tree, marks the package exactly on success, and pip runs (with the package's spec) only when there is no test or the first import failed with ImportError |
| Installer.RuntimeInstaller.InstallAiDependencies | python/utils/runtime_installer.py:152-195 | on pip success the seven AI packages are marked and it returns true; otherwise nothing changes |
| Installer.MarksAreMonotone | python/utils/runtime_installer.py:40-83 | marking a set of packages (one for ensure_package_installed, the seven for install_ai_dependencies, or none) never removes a mark, and only those packages gain one |
| PyEmbeddings.DetermineDevice | python/services/embeddings.py:91-107 | a fixed setting is kept; "auto" picks cuda when available, else mps, else cpu (also when probing fails) |
| PyEmbeddings.MaxChars | python/services/embeddings.py:213 | 4 characters per token of the model's sequence length, 2000 without one |
| PyEmbeddings.CleanText | python/services/embeddings.py:202-218 | `_clean_text`: normalise, then cut to the character limit with "..." (its properties are the four `CleanText` lemmas below) |
| PyEmbeddings.CleanTextShape | python/services/embeddings.py:202-218 | the normalised text, cut to the character limit with "..." appended when longer |
| PyEmbeddings.CleanTextNormalized | python/services/embeddings.py:202-218 | the cleaned text is stripped and collapsed |
| PyEmbeddings.CleanTextBlank | python/services/embeddings.py:202-218 | the cleaned text is blank iff the input is |
| PyEmbeddings.CleanTextIdempotent | python/services/embeddings.py:202-218 | cleaning twice equals cleaning once |
| PyEmbeddings.ValidTexts | python/services/embeddings.py:157-160 | the cleaned texts that are not blank, never more than the inputs |
| PyEmbeddings.ValidTextsCount | python/services/embeddings.py:157-163 | nothing is left iff every text is blank; no blank text means none is dropped |
| PyEmbeddings.Insert | python/services/embeddings.py:282 | insertion into the ranking adds exactly the entry |
| PyEmbeddings.InsertRanked | python/services/embeddings.py:282 | insertion keeps the ranking: higher similarity first, ties in index order |
| PyEmbeddings.SortBySimilarity | python/services/embeddings.py:282 | the sort is a permutation |
| PyEmbeddings.SortRanked | python/services/embeddings.py:282 | sorting entries listed by index gives the stable descending order of `list.sort(reverse=True)` |
| PyEmbeddings.RankedAll | python/services/embeddings.py:282 | in a ranked list every earlier entry comes before every later one |
| PyEmbeddings.PyHead | python/services/embeddings.py:285 | Python slicing `s[:k]`, including negative k |
| PyEmbeddings.Scored | python/services/embeddings.py:276-279 | one entry per candidate, its index and its similarity |
| PyEmbeddings.ComputeSimilarity | python/services/embeddings.py:220-257 | vectors of different lengths raise numpy's "shapes not aligned" error, re-raised; equal lengths give the cosine |
| PyEmbeddings.SortedScores | python/services/embeddings.py:276-282 | the sorted scores are ranked, each with its candidate's similarity, and every candidate appears |
| PyEmbeddings.MostSimilarIsTopK | python/services/embeddings.py:259-289 | min(k, n) ranked results with their true similarities, and no candidate left out scores higher than one kept |
| PyEmbeddings.EmbeddingsService.constructor | python/services/embeddings.py:29-39 | no model, not initialised, no dimension or sequence length |
| PyEmbeddings.EmbeddingsService.Initialize | python/services/embeddings.py:41-81 | fails without sentence-transformers; succeeds at once when initialised; otherwise succeeds iff the model loads, and then stores it |
| PyEmbeddings.EmbeddingsService.GetModelInfo | python/services/embeddings.py:295-307 | "not initialised" iff not initialised; otherwise the model's settings |
| PyEmbeddings.EmbeddingsService.Cleanup | python/services/embeddings.py:335-351 | model, flag and model information are cleared |
| PyEmbeddings.EmbeddingsService.GenerateEmbedding | python/services/embeddings.py:109-140 | not ready raises; blank text gives None; otherwise the encoder's answer for the cleaned text |
| PyEmbeddings.EmbeddingsService.GenerateEmbeddings | python/services/embeddings.py:142-176 | not ready raises; all blank gives []; otherwise the batch encoder's answer for the valid cleaned texts |
| PyEmbeddings.EmbeddingsService.FindMostSimilar | python/services/embeddings.py:259-289 | no candidates gives []; the first candidate whose length differs from the query's raises numpy's error; otherwise the first k of the ranked scores |
| PyEmbeddings.ReadyIffInitialized | python/services/embeddings.py:291-293 | ready iff initialised, and the model information agrees |
| PyTts.VoiceNamesAreTheTable | python/services/tts.py:58-70 | the listed voice names are exactly the table's keys |
| PyTts.VoiceLanguages | python/services/tts.py:58-70 | af_ voices are American English ("a"), bf_ voices British English ("b") |
| PyTts.LangCodeFor | python/services/tts.py:100-101 | the voice's language code, "a" for an unknown voice |
| PyTts.CleanText | python/services/tts.py:210-223 | `_clean_text`: normalise and end with a sentence mark (its properties are `CleanTextShape` and `CleanTextIdempotent`) |
| PyTts.SelectVoice | python/services/tts.py:140-146 | the requested voice when it is in the table, else the default |
| PyTts.CleanTextShape | python/services/tts.py:210-223 | the cleaned text is normalised, empty iff blank, and otherwise ends with '.', '!' or '?' |
| PyTts.CleanTextIdempotent | python/services/tts.py:210-223 | cleaning twice equals cleaning once |
| PyTts.KeptSegmentsSnoc | python/services/tts.py:186-190 | one more segment is kept iff it is present and non-empty |
| PyTts.FlattenLength | python/services/tts.py:197-201 | concatenation keeps every sample |
| PyTts.CollectedSingle | python/services/tts.py:193-204 | a single kept segment is returned itself |
| PyTts.SingleKept | python/services/tts.py:186-190 | when exactly one segment has audio, it alone is kept |
| PyTts.NoneKept | python/services/tts.py:186-195 | no segment with audio keeps nothing |
| PyTts.TTSService.constructor | python/services/tts.py:48-70 | the settings are kept, no pipeline, not initialised |
| PyTts.TTSService.Initialize | python/services/tts.py:72-116 | succeeds iff kokoro gets installed, imports and the pipeline is created (or it was initialised); the pipeline uses the voice's language code |
| PyTts.TTSService.SynthesizeText | python/services/tts.py:167-208 | blank text and pipeline failures give None; otherwise the collected segments |
| PyTts.TTSService.SynthesizeSpeech | python/services/tts.py:126-165 | not ready raises; otherwise the synthesis for the selected voice |
| PyTts.TTSService.GetModelInfo | python/services/tts.py:240-252 | "not initialised" iff not initialised; otherwise voice, voice list and device |
| PyTts.TTSService.Cleanup | python/services/tts.py:279-286 | pipeline and flag are cleared |
| PyStt.WhisperTestNeverSucceeds | python/services/stt.py:43-46 | the import test names an undefined function, so ensure_package_installed never succeeds through it |
| PyStt.DetermineDevice | python/services/stt.py:94-108 | a fixed setting is kept; "auto" gives cuda iff torch reports CUDA, else cpu |
| PyStt.DetermineComputeType | python/services/stt.py:110-117 | a fixed setting is kept; "auto" gives float16 on cuda and int8 otherwise |
| PyStt.AutoPrecisionFollowsProbe | python/services/stt.py:94-117 | with both on "auto", float16 iff CUDA is available, else int8 |
| PyStt.ParamsFor | python/services/stt.py:162-170 | beam 5, word timestamps, no VAD, and a language exactly when a non-empty one is given |
| PyStt.EntryOfWord | python/services/stt.py:188-193 | a word's times and text, probability 1.0 when missing |
| PyStt.EntryOfSegment | python/services/stt.py:178-195 | a segment's times and text, with its words when present |
| PyStt.JoinBlank | python/services/stt.py:200 | the joined texts are blank iff every text is |
| PyStt.FullTextShape | python/services/stt.py:200 | the full text is stripped, empty iff every segment is blank, and a single segment's stripped text |
| PyStt.Entries | python/services/stt.py:176-197 | one entry per segment, in order |
| PyStt.TranscribeFile | python/services/stt.py:160-208 | a model failure propagates; otherwise the entries, the joined text and the info's language, probability and duration |
| PyStt.Float32ToWav | python/services/stt.py:233-254 | writable parameters give the WAV bytes, others fail |
| PyStt.WavBytes | python/services/stt.py:233-252 | the WAV file `_float32_to_wav` writes: 44 + 2n bytes, header then quantised frames |
| PyStt.WavBytesHeader | python/services/stt.py:233-254 | 44 + 2n bytes, with a header that parses back to mono 16-bit PCM at the rate |
| PyStt.WavBytesSamples | python/services/stt.py:244-252 | each frame decodes to the quantised sample |
| PyStt.STTService.constructor | python/services/stt.py:30-37 | the settings are kept, no model, not initialised |
| PyStt.STTService.Initialize | python/services/stt.py:39-83 | succeeds iff faster-whisper is already marked and the model loads (or it was initialised); the model uses the determined device and precision |
| PyStt.STTService.TranscribeAudio | python/services/stt.py:119-158 | not ready raises; a failed temp write raises; otherwise `_transcribe_file`'s whole result (`Reports`): the model's error, or the entries, joined text, language, probability and duration |
| PyStt.STTService.TranscribeFloat32Array | python/services/stt.py:210-231 | bad WAV parameters fail first, then readiness, then a failed temp write, then `_transcribe_file`'s whole result for the WAV bytes (`Reports`) |
| PyStt.STTService.GetModelInfo | python/services/stt.py:260-271 | "not initialised" iff not initialised; otherwise size, device and precision |
| PyStt.STTService.Cleanup | python/services/stt.py:273-280 | model and flag are cleared |
| PyMain.PackageOf | python/main.py:205-242 | each service's pip package is one of the AI packages |
| PyMain.Register | python/main.py:62 | registration adds the name once, keeping order and the existing entries |
| PyMain.Backend.constructor | python/main.py:32-107 | the services are kept, nothing is registered, nothing is downloading |
| PyMain.Backend.ServiceInfoOf | python/main.py:160-175 | each service's model information |
| PyMain.Backend.Startup | python/main.py:32-88 | the bulk install runs iff none of the three packages is marked; each enabled service is registered iff it initialised, under the combined install and import conditions, in the order stt, tts, embeddings; download flags and disabled services are untouched |
| PyMain.Backend.StartServices | python/main.py:57-85 | the three start steps in order: the registry gains exactly the services that initialised, in that order, and nothing else changes for a disabled service |
| PyMain.Backend.BulkInstall | python/main.py:42-52 | runs iff none is marked, and then marks the packages on pip success |
| PyMain.Backend.StartStt | python/main.py:58-65 | an enabled STT service is registered iff it initialised |
| PyMain.Backend.StartTts | python/main.py:68-75 | an enabled TTS service is registered iff it initialised |
| PyMain.Backend.StartEmbeddings | python/main.py:78-85 | an enabled embeddings service is registered iff it initialised |
| PyMain.Backend.Shutdown | python/main.py:95-106 | every registered service is cleaned up, the others and the download flags are untouched, and the registry is emptied |
| PyMain.Backend.CleanupService | python/main.py:98-104 | the named service is no longer ready; the others are untouched |
| PyMain.Backend.HealthCheck | python/main.py:136-156 | "healthy", version 1.0.0, and each registered service with its readiness, in order |
| PyMain.Backend.ModelStatus | python/main.py:160-175 | each registered service with its model information, in order |
| PyMain.Backend.GetDownloadStatus | python/main.py:179-195 | installed and downloading flags per service |
| PyMain.Backend.DownloadModel | python/main.py:198-256 | an invalid name is rejected and changes nothing; otherwise success as the installer decides, the service appended when installed, enabled and absent, and no flag left set |
| PyMain.Backend.DownloadStt | python/main.py:205-216 | the STT branch of download_model |
| PyMain.Backend.DownloadTts | python/main.py:218-229 | the TTS branch of download_model |
| PyMain.Backend.DownloadEmbeddings | python/main.py:231-242 | the embeddings branch of download_model |

## Left out

- Concurrency: `asyncio.Lock`, `sync.RWMutex`, `run_in_executor` and goroutines. Every method runs sequentially, and the single-flight guarantee becomes idempotent re-initialisation.
- Network and filesystem I/O: downloads (`downloadFile*`, `tryDownload`, backend/internal/downloader), zip/tar/gzip extraction, `os.Stat`/`MkdirAll`/`WriteFile`, temp files and their removal, and the MD5 `GetChecksum`. Each outcome is a parameter: a file set, an error option or a byte result.
- `extractVoiceModels`, `IsAssetAvailable` and `GetProductionBaseDirectory` in backend/internal/embedded/assets.go: they are filesystem work, and `EnsureAssets` only logs the voice-model result.
- Subprocesses: `pip`, the piper and whisper binaries, and PyInstaller. Their exit status and the transcript they write are parameters.
- `ensureWhisperBinary`, `downloadWhisperBinary`, `ensureVoiceModel` and `synthesizeWithPiper`: these download or run programs. Only their outcomes reach the model, as parameters of `Initialize`, `TranscribeWithWhisper` and `Synthesize`.
- Floating point:
  - ONNX mean pooling and L2 normalisation;
  - the value of the Python cosine similarity (`_cosine_similarity`), which `ComputeSimilarity` and `FindMostSimilar` take as a function parameter; the error `np.dot` raises for vectors of different lengths is modelled;
  - the float32 rounding of the Go scores.
  Scores and samples are exact reals.
- PiperAudio.GenerateWordAudio: the sine/envelope waveform of `generateWordAudio` is an abstract `tone` function of frequency, word length, word index and sample index. The contract states where each value goes, not its shape.
- PiperAudio.GeneratePlaceholderWAV: the duration computation of `generatePlaceholderWAV` (floating point over the text length) is the parameter `n`, the number of samples.
- ML libraries (ONNX Runtime, sentence-transformers, kokoro, faster-whisper, torch, soundfile). A model's construction is a success/failure parameter. Its encode, synthesis and transcription outputs are function parameters.
- PyTts.TTSService.SynthesizeSpeech: returns the collected float samples. The `soundfile` WAV encoding (`_numpy_to_wav_bytes`) is not modelled.
- PyTts.TTSService.Initialize: the module-level `KOKORO_AVAILABLE` cache of `_import_kokoro` is folded into one parameter: whether the post-install import succeeds.
- The HTTP layer: backend/internal/api other than api/stt.go, server routing and CORS, the FastAPI app, the routers and python/api. backend/internal/api/stt.go is modelled because it holds the PCM encoder.
- Process entry points, logging and timestamps (`log.Printf`, the Python logger, `LastUpdated`): they have no effect on results.
- Python configuration (pydantic `Settings`, `get_models_cache_dir`) and the environment variables the services set (`HUGGINGFACE_HUB_CACHE`, `TRANSFORMERS_CACHE`, `SENTENCE_TRANSFORMERS_HOME`). The settings are constructor arguments.
- Python `get_voices`, `get_available_voices`, `test_synthesis`, `test_embedding` the Go `GetInfo` accessors and the Go `TTSService.GetVoices` (backend/internal/piper/tts.go:167-176): each returns a field or wraps an operation that is modelled.
- PyMain.Backend.HealthCheck: every registered service has `is_ready` and none of them raises, so the exception branch (reported False) and the missing-method branch (reported True) cannot occur and are not modelled.
- PyMain.Backend.ModelStatus: `get_model_info` never raises, so the `{"status": "error"}` branch is not modelled.
- PyMain.Backend.DownloadModel: `ensure_package_installed` catches every exception and returns False. The except branch of `download_model` is therefore reached only through `initialize`, which catches its own errors as well, so the branch is not modelled. Its one effect, clearing the `_downloading_*` flag, is still stated: no flag is left set.
- Models.Manager.Initialize: states that the call always succeeds. Every Go service's `Initialize` returns nil, so the abort path, and the partial assignment it would leave, is unreachable and not modelled.
- Whisper.STTService.TranscribeAudio: the zero-sample branch (empty transcript, no error) cannot be reached after the empty-data check, because non-empty even-length data has at least one sample. It is not modelled separately.
- Assets.JoinPath: `filepath.Join` is modelled as "/"-concatenation that skips an empty or "." directory. Cleaning of `..` and doubled separators is not modelled. The contract states the prefix and the suffix, and the exact relative paths are proved in `WorkingDirectoryBinaries`, `WorkingDirectoryModels` and `WorkingDirectoryVoiceModel`.
- Assets.AssetManager.GetVoiceModelPath: the contract states only the `<voice>.onnx` suffix for any base directory. The full path for the working directory is `WorkingDirectoryVoiceModel`.
- PyStt.STTService.TranscribeFloat32Array: a WAV the `wave` module refuses (rate or size out of range) is stated as a failure, without the exception text.
- `GetPlatformInfo` logs a warning for an unsupported OS, and that is left out. The model covers the resulting names, which are the non-Windows ones.
- Characters are bytes. There is no Unicode handling: Go's `unicode.IsLetter`/`IsDigit`/`IsSpace` are their ASCII classes. Python's `str.strip` and `\s` on `str` also treat the separators `\x1c`–`\x1f` as white space, but the model's `IsSpace` does not, so `Installer.ParseLine`, `PyStt.FullText`, `PyEmbeddings.CleanText` and `PyTts.CleanText` keep those four characters where Python would strip or collapse them.

## Findings

| source | as written | input that shows it | evidently intended | confidence | as-written member | corrected member |
|---|---|---|---|---|---|---|
| backend/internal/minilm/onnx_embeddings.go:724-728 | after a match, `tokenizeWord` strips a leading "##" from the key even on the first piece, where no "##" was added, and then advances by the stripped length; `basicTokens` never yields a '#', so `encode` does not reach this path | vocabulary {"##ab": 7}, word "##ab": the first match "##ab" is stripped to "ab", the loop advances 2 bytes, matches "ab" again as a continuation and yields [7, 7] | consume exactly the matched bytes and strip only the "##" the loop itself added to continuations, so "##ab" yields [7] | not executed | WordPiece.PiecesAsWritten (exhibited by WordPiece.FirstPieceWithHashesRepeats) | WordPiece.Pieces (proved in WordPiece.PiecesCoverWord) |
