# Multi-Source RAG Engine — a Dafny model of its core

The Multi-Source RAG Engine is a Streamlit application. A user hands it a YouTube
link, a web page or a set of PDF/DOCX files. It extracts the text, indexes it in a
Chroma vector store and then answers questions about it, streaming answers from
Gemini and offering three suggested questions.

This project models the parts of the program that decide what happens:

- the session state of `app.py` and how each interaction changes it:
  - first-run initialisation;
  - processing a URL or a batch of uploaded files;
  - submitting a question or clicking a suggestion;
  - folding the answer stream into one AI message;
  - the rule that decides when sources are shown;
- `generate_suggested_questions`, including the regular expression that reads a
  numbered list out of the model's reply;
- `load_and_cache_document`: the temporary file named by the content hash, dispatch
  on MIME type, and removal of the file in every case;
- `get_video_transcript` and `_transcribe_audio_with_whisper`: extraction of the
  video id, the transcript-first policy with fall-back to speech-to-text, and
  clean-up of `temp_audio.mp3`;
- `create_vector_store`: its two guards, its splitter configuration, and the failure of
  the embedding model or of Chroma indexing.

Every call into a library or a service is a parameter of the model, given as the
outcome the core sees. That covers the transcript service, the downloader, Whisper,
the web/PDF/DOCX loaders, MD5, the text splitter, the embedding model with Chroma
indexing, Gemini and the RAG chain's stream. An exception becomes an explicit outcome (`None`, `Raised`, `LlmFailed`,
`FetchFailed`, ...).

The file system is a `Disk` object that holds the set of existing paths. Methods
that touch it give the exact set of paths they leave behind. This holds on the
failure paths too.

Files:

| file | module | contents |
|---|---|---|
| `wrappers.dfy` | `Wrappers` | `Option`, `Result` |
| `text.dfy` | `Text` | Python `find`, `in`, `startswith`, `split`, `join`, `strip` |
| `messages.dfy` | `Messages` | `Document`, `HumanMessage`/`AIMessage` |
| `filesystem.dfy` | `FileSystem` | the `Disk` class |
| `video_processor.dfy` | `VideoProcessor` | `src/video_processor.py` |
| `vector_store.dfy` | `VectorStore` | `src/vector_store.py` |
| `suggestions.dfy` | `Suggestions` | `generate_suggested_questions` and its parser |
| `document_upload.dfy` | `DocumentUpload` | `load_and_cache_document` |
| `session.dfy` | `App` | the session state and the interactions of `app.py` |

### Behaviour of app.py worth knowing

- **"Could not retrieve content."** This is an error widget, not an exception. An empty
  document list leaves the session unchanged (outcome `NoContent`).
- **Empty transcripts.** An empty transcript (`""`) is falsy at app.py:108. It therefore
  yields no document, just as `None` does.
- **Short links.** A `youtu.be/<id>` link passes the routing test at app.py:106. It
  has no `v=`, so `get_video_transcript` returns `None` and nothing is ingested
  (`App.VideoLinkWithoutMarkerYieldsNothing`).
- **Files with an unknown MIME type.** These contribute `[]`; they do not raise.

## Model

| member | source | states |
|---|---|---|
| `Text.FindFrom` | src/video_processor.py:16 | the result is an occurrence at or after the start, and no earlier occurrence exists |
| `Text.FindIffContains` | app.py:106 | `find` succeeds exactly when Python's `in` holds |
| `Text.Contains` | app.py:106 | Python's `pat in s`: an occurrence at some index; tied to `find` by `Text.FindIffContains` |
| `Text.StartsWith` | app.py:138 | Python's `s.startswith(prefix)`: the first `\|prefix\|` characters are the prefix |
| `Text.StartsWithExtension` | app.py:154 | appending to a string that starts with a prefix keeps the prefix, which is why `full_response +=` never loses the context marker |
| `Text.Split` | src/video_processor.py:16 | `str.split(sep)` always yields at least one piece |
| `Text.JoinSplit` | src/video_processor.py:16 | joining the pieces of a split with the same separator gives back the string |
| `Text.SplitPiecesFree` | src/video_processor.py:16 | no piece of a split contains the separator |
| `Text.SplitFirstPiece` | src/video_processor.py:16 | the first piece of a split ends at the first occurrence of the separator, or at the end |
| `Text.SplitSeveralIffContains` | src/video_processor.py:16 | a split has two or more pieces exactly when the separator occurs, so the `[1]` index fails exactly when `v=` is missing |
| `Text.Join` | app.py:120 | Python's `sep.join`; characterised by `Text.JoinSplit` and `Text.JoinEmptySeparator` |
| `Text.JoinEmptySeparator` | src/video_processor.py:63 | `"".join` is plain concatenation of the segments |
| `Text.CountWhile` | app.py:63 | the leading run of characters that satisfy the test is maximal |
| `Text.CountWhileFromEnd` | app.py:63 | the trailing run of characters that satisfy the test is maximal |
| `Text.IsSpace` | app.py:63 | the character set of `str.isspace()`, which is also what `\s` matches in a `str` pattern; `Text.Strip` cuts exactly these characters |
| `Text.Strip` | app.py:63 | the result has no surrounding whitespace; it is `s` with only whitespace cut from either end; it is empty iff `s` is all whitespace |
| `Text.StripIdempotent` | app.py:63 | stripping twice is stripping once |
| `Text.NoSurroundingSpaceStrips` | app.py:63 | a string with no surrounding whitespace is its own strip |
| `VideoProcessor.VideoId` | src/video_processor.py:16 | a video id exists exactly when the URL contains `v=`, and it contains no `&` |
| `VideoProcessor.VideoIdIsTextAfterFirstMarker` | src/video_processor.py:16 | the id is the text after the first `v=` up to the next `&` or `v=`, or to the end |
| `VideoProcessor.TranscriptPlan` | src/video_processor.py:15-31 | audio fall-back happens iff there is an id and the service reports `NoTranscriptFound`; no id gives `None`; otherwise a transcript exists iff the fetch succeeded, and it is the snippets joined by one space |
| `VideoProcessor.AudioTranscription` | src/video_processor.py:50-69 | a transcript exists iff the download did not raise, `temp_audio.mp3` exists and Whisper succeeded; it is the segments concatenated |
| `VideoProcessor.TranscribeAudioWithWhisper` | src/video_processor.py:34-73 | returns `AudioTranscription` and leaves the disk as the downloader left it, minus `temp_audio.mp3`, on every path |
| `VideoProcessor.GetVideoTranscript` | src/video_processor.py:11-31 | without fall-back the disk is untouched and the plan's value is returned; with fall-back the audio contract holds |
| `VectorStore.CreateVectorStore` | src/vector_store.py:12-41 | empty input raises the first `ValueError`; an empty split raises the second; a failure to load all-MiniLM-L6-v2 or to index the chunks raises; a store exists iff none of these happens, and then it holds exactly the chunks the splitter (1000/200/`len`) produced |
| `Suggestions.Take` | app.py:57 | Python's `[:n]`: the first `n` elements, or the whole sequence when it is shorter |
| `Suggestions.TakeOfExtension` | app.py:57 | the slice `[:n]` of a sequence with at least `n` elements ignores anything appended to it |
| `Suggestions.PageContents` | app.py:57 | entry `i` is the page content of document `i` |
| `Suggestions.CombinedContent` | app.py:57 | at most 4000 characters; a prefix of the space-joined contents of the first three documents; the whole join when it is shorter |
| `Suggestions.SuggestionPrompt` | app.py:58 | the fixed instruction text, the combined content between triple quotes, then the "Questions:" cue; what varies is pinned by `Suggestions.CombinedContent` |
| `Suggestions.LookaheadDistance` | app.py:62 | the lazy group stops at the first position where `(?=\n\d+\.\|$)` holds |
| `Suggestions.NumberDot` | app.py:62 | `\d+\.` at the start: a non-empty run of digits followed by a dot; `Suggestions.MatchQuestion` matches exactly when it holds |
| `Suggestions.LookaheadHolds` | app.py:62 | `(?=\n\d+\.\|$)`: the end of input, a final line break (without MULTILINE `$` also matches there), or a line break before `\d+\.`; used by `Suggestions.LookaheadDistance` and `Suggestions.MatchQuestion` |
| `Suggestions.GroupStart` | app.py:62 | the group starts after the maximal digit run, the dot and the maximal whitespace run |
| `Suggestions.MatchQuestion` | app.py:62 | a match at the current position exists iff the input starts with `\d+\.`; group and rest together are the input after `\d+\.\s*`; the look-ahead holds at the rest and at no earlier position of the group |
| `Suggestions.FindAllQuestions` | app.py:62 | `re.findall` scanning left to right; characterised by `Suggestions.FindAllNumbered` and the step lemmas `Suggestions.FindAllAfterMatch`, `Suggestions.FindAllSkipsLineBreak` and `Suggestions.FindAllLineThenNext` |
| `Suggestions.StripAll` | app.py:63 | entry `i` is the strip of found question `i` |
| `Suggestions.CleanQuestions` | app.py:63 | a question is kept iff it is the non-empty strip of a found question; every kept question is stripped |
| `Suggestions.CleanQuestionsAppend` | app.py:63 | the clean-up works question by question, so order and duplicates are kept |
| `Suggestions.CleanQuestionsSingle` | app.py:63 | one found question gives its strip when that is non-empty, and nothing otherwise |
| `Suggestions.GenerateSuggestedQuestions` | app.py:55-66 | no documents, or a failed model call, give no suggestions; for a reply, the suggestions, as a set, are exactly the non-empty strips of the matches; every suggestion is non-empty and stripped. Order and duplicates follow from the body through `Suggestions.CleanQuestionsAppend` and `Suggestions.CleanQuestionsSingle` |
| `Suggestions.LookaheadStep` | app.py:62 | before a character other than a line break the look-ahead fails, so the lazy group takes that character |
| `Suggestions.LookaheadAfterLine` | app.py:62 | after one line of a numbered list, the look-ahead stops the group at the line end |
| `Suggestions.MatchNumberedLine` | app.py:62 | matching at `n. q` captures exactly `q` |
| `Suggestions.FindAllAfterMatch` | app.py:62 | after a match, `re.findall` records the group and continues with the input after the match |
| `Suggestions.NumberedListStartsNumbered` | app.py:62 | a non-empty numbered list starts with `\d+\.` |
| `Suggestions.FindAllSkipsLineBreak` | app.py:62 | a line break before the next item is skipped without a match |
| `Suggestions.FindAllLineThenNext` | app.py:62 | one line then the rest of the list: the line's question, then the rest's |
| `Suggestions.FindAllNumbered` | app.py:62 | `findall` on `1. q1\n2. q2\n...` returns exactly the questions |
| `Suggestions.CleanPlainQuestions` | app.py:63 | questions without surrounding whitespace survive the clean-up unchanged |
| `Suggestions.SuggestionsFromNumberedReply` | app.py:55-63 | a reply that is a numbered list `1. q1\n2. q2\n…` of up to nine plain questions, the shape the pattern at app.py:62 expects, yields exactly its questions, in order |
| `Suggestions.OnlyFirstThreeDocumentsMatter` | app.py:57 | documents after the third do not change the suggestions |
| `DocumentUpload.LastIndexOf` | app.py:73 | the last index of the character, or -1 when it is absent |
| `DocumentUpload.SplitExt` | app.py:73 | root plus extension is the name; the extension is non-empty iff the last component has a dot after some non-dot, and then it starts at the last dot and holds no further dot or slash |
| `DocumentUpload.PathJoin` | app.py:74 | an absolute second part replaces the first; otherwise the result starts with the directory and ends with the file name, the two are plain concatenation exactly when the directory is empty or ends with `/`, and the one extra character otherwise is `/` |
| `DocumentUpload.TempPath` | app.py:70-74 | the hash-named path of an upload; characterised by `DocumentUpload.TempPathLayout` and `DocumentUpload.TempPathIsNotTempDir` |
| `DocumentUpload.TempPathLayout` | app.py:70-74 | the temporary file is `temp_docs_cache/<hex digest><extension>` |
| `DocumentUpload.TempPathIsNotTempDir` | app.py:74 | the temporary file is never the cache directory itself |
| `DocumentUpload.LoadByType` | app.py:77-80 | the PDF type goes to the PDF loader, the DOCX type to the DOCX loader, and any other type yields `[]` |
| `DocumentUpload.LoadAndCacheDocument` | app.py:68-82 | returns what the loader for the type returns on the hash-named path; afterwards the cache directory exists and the temporary file does not, whatever the loader did |
| `App.StreamedAnswer` | app.py:150-154 | `full_response` after the given pieces; characterised by `App.StreamedAnswerIsConcat` and `App.StreamedAnswerAppend` |
| `App.LastContext` | app.py:151-155 | `context_docs` after the given pieces; characterised by `App.LastContextIsLatest` and `App.LastContextEmptyIff` |
| `App.AnswerText` | app.py:154 | the text a piece adds: its answer when present, or nothing; `App.AnswerTexts` and `App.StreamedAnswerIsConcat` build on it |
| `App.HasContext` | app.py:155 | a piece's context is present and non-empty; `App.LastContextIsLatest` keeps the last such one |
| `App.StreamedAnswerAppend` | app.py:150-154 | the answer of a stream read in two parts is the two answers concatenated |
| `App.AnswerTexts` | app.py:154 | entry `i` is the text piece `i` adds to the answer |
| `App.StreamedAnswerIsConcat` | app.py:150-154 | the final answer is the in-order concatenation of the truthy answer pieces |
| `App.MarkerSurvivesLaterPieces` | app.py:138 | once a partial answer starts with the context marker, the final answer does too |
| `App.LastContextIsLatest` | app.py:151-155 | the context kept is that of the last piece that carried a non-empty one |
| `App.LastContextEmptyIff` | app.py:151-155 | the context is `[]` exactly when no piece carried one |
| `App.FoldStream` | app.py:150-155 | the loop computes the streamed answer and the last context |
| `App.ShowsSources` | app.py:138 | the display condition for sources; characterised for streamed answers by `App.StreamedAnswerShowsSources` |
| `App.StreamedAnswerShowsSources` | app.py:138 | sources are shown iff the answer starts with "Based on the provided context:" and some piece brought context |
| `App.IsVideoUrl` | app.py:106 | the routing test `"youtube.com" in url or "youtu.be" in url` |
| `App.TranscriptFor` | app.py:107 | what `get_video_transcript(url)` returns: the plan's value, or the audio transcription on fall-back; `App.Session.ProcessUrl` calls `VideoProcessor.GetVideoTranscript` and its contract is stated through this function, so the two agree |
| `App.DiskAfterTranscript` | app.py:107 | the disk after `get_video_transcript(url)`: unchanged without fall-back, otherwise the downloader's files minus `temp_audio.mp3` |
| `App.UrlDocuments` | app.py:105-110 | the documents a URL yields; characterised by `App.VideoLinkWithoutMarkerYieldsNothing` and by `App.Session.ProcessUrl`'s contract |
| `App.VideoLinkWithoutMarkerYieldsNothing` | app.py:106-108 | a video link without `v=` yields no document and leaves the disk alone |
| `App.FileNames` | app.py:120 | entry `i` is the name of upload `i` |
| `App.LoadFile` | app.py:122-123 | what `load_and_cache_document` returns for one upload, as `DocumentUpload.LoadAndCacheDocument` promises |
| `App.ExtractedDocuments` | app.py:121-123 | `all_docs` after the loop, or failure; characterised by `App.ExtractionFailureIsFinal` and by `App.ExtractAll`'s contract |
| `App.ExtractionFailureIsFinal` | app.py:121-123 | once a file's loader raises, the whole upload fails |
| `App.BuildChain` | app.py:87-88 | a chain exists iff the documents and their split are non-empty, the chunks can be indexed and the model can be built; it retrieves from exactly the split chunks |
| `App.IngestOutcomeFor` | app.py:111-125 | never the missing-input warning; a raising extraction is `Raised`; no content exactly when extraction gave `[]`; ingested exactly when the documents are non-empty and the chain was built |
| `App.TempPaths` | app.py:74 | holds the temporary path of every given upload, and never the cache directory |
| `App.TempPathsExactly` | app.py:74 | the set holds nothing but those temporary paths, so it is exactly the uploads' temporary files |
| `App.Attempted` | app.py:121-123 | how many uploads reach a loader: at most all, and at least one when there are any |
| `App.AttemptedAll` | app.py:121-123 | when no loader raises, every upload was attempted |
| `App.AttemptedAfterFailure` | app.py:121-123 | when the loader of upload `i` raises, exactly uploads `0..i` were attempted |
| `App.DiskAfter` | app.py:72-82 | the disk after uploads are cached and removed one after the other; characterised by `App.DiskAfterIsExact` and `App.DiskAfterRemovesAll` |
| `App.DiskAfterIsExact` | app.py:72-82 | once any upload was handled, the disk is the initial one plus the cache directory minus exactly the temporary files of those uploads |
| `App.DiskAfterRemovesAll` | app.py:80-82 | after handling uploads the cache directory exists and none of their temporary files is left |
| `App.ExtractStep` | app.py:121-123 | one pass of the loop: a failed load fails the whole extraction, a successful one extends `all_docs` by its documents, and the disk moves one upload on |
| `App.ExtractAll` | app.py:119-123 | the result is `all_docs` as `App.ExtractedDocuments` defines it; the disk is `App.DiskAfter` the attempted uploads, on success and on failure |
| `App.Session.constructor` | app.py:44-51 | a new browser session holds no keys |
| `App.Session.Initialise` | app.py:44-51 | each key is set to its default only when absent; a fresh or valid session ends valid |
| `App.Session.AwaitingAnswer` | app.py:146 | a chain exists and the last message is a question, the condition under which the answer is streamed |
| `App.Session.ProcessNewSource` | app.py:84-91 | the session changes only if the store and the chain were built; then the chain, an empty history, the source name and the suggestions are installed |
| `App.Session.ProcessUrl` | app.py:102-113 | an empty URL only warns; video links use the transcript, other links the web loader; the session changes only when documents were ingested, and the source name is the URL |
| `App.Session.ProcessDocuments` | app.py:116-126 | no files only warns; otherwise the outcome follows extraction and ingestion, the source name is the file names joined by ", ", and the disk is `App.DiskAfter` the attempted uploads |
| `App.Session.SubmitQuestion` | app.py:171-172 | a non-empty prompt is appended as a human message; nothing else changes |
| `App.Session.ClickSuggestion` | app.py:166-168 | the clicked suggestion is appended as a human message; nothing else changes |
| `App.Session.PendingStream` | app.py:147-152 | the chain is called with the last question and the history before it; `App.Session.StreamAnswer` consumes it |
| `App.Session.StreamAnswer` | app.py:146-160 | a pending question gets exactly one AI message, holding the streamed answer and its context, and the suggestions are cleared; a stream that raises changes nothing |
| `App.Session.AskQuestion` | app.py:146-172 | a typed question and its re-run add the question and its answer; the chain sees the history before the question |
| `App.Session.AskSuggestion` | app.py:146-168 | a clicked suggestion and its re-run add the question and its answer |
| `App.StartSession` | app.py:44-51 | the first run leaves no chain, no history, no suggestions and an empty source name |
| `App.Rerun` | app.py:44-51 | later runs leave an initialised session as it was |
| `FileSystem.Disk.constructor` | app.py:72 | a disk with the given paths |
| `FileSystem.Disk.Exists` | app.py:82 | `os.path.exists`: the path is in the disk's set of paths |
| `FileSystem.Disk.Create` | app.py:72-76 | `os.makedirs`/`open(..., "wb")` add exactly the path |
| `FileSystem.Disk.CreateAll` | src/video_processor.py:52-53 | the downloader adds exactly the files it creates |
| `FileSystem.Disk.Remove` | app.py:82 | `os.remove` of an existing path removes exactly it |

Every `Session` method that changes state preserves `Session.Valid`, which says:

- all four keys are present;
- there is a chain whenever there is history;
- the history alternates between questions and answers.

## Left out

- Streamlit itself is not modelled. That includes rendering, `st.spinner`, `st.toast`, columns, CSS, `st.rerun` as a control transfer, and the widget keys. An interaction and the re-run it triggers are modelled as one method.
- The `st.cache_data`/`st.cache_resource` caches are not modelled. In particular a cached `load_and_cache_document` would skip writing the file on a repeated upload. Every call is modelled as a fresh execution.
- Library internals are outside the model and become parameters: LangChain, Chroma, the recursive text splitter, sentence-transformer embeddings, Gemini, youtube-transcript-api, yt-dlp and faster-whisper. Chroma and the embeddings appear only as `Services.index`, which says whether indexing succeeds; vectors and retrieval are not modelled.
- Concurrency is not modelled. Streamlit serves several browser sessions from one process and one working directory. They share `temp_audio.mp3` (src/video_processor.py:55,71) and `temp_docs_cache`. Each `Disk` method assumes nobody else touches the file system while it runs, so "the mp3 is gone on return" and the exact disk states of `App.ExtractAll` hold only when one session runs at a time.
- The conversation chain of src/rag_pipeline.py (prompts, history-aware retriever) is not modelled. Only "the chain can be built" (`Services.geminiReady`) and its answer stream are.
- The loaders of src/data_loader.py are not modelled; they become the parameters `loadWebpage` and `Loaders`.
- `hashlib.md5` is not modelled; it is an uninterpreted parameter.
- src/config.py and the evaluation harness (run_evaluation.py, evaluation/) are not part of this model.
- `DocumentUpload.SplitExt` and `DocumentUpload.PathJoin` follow POSIX `os.path` (`posixpath`). On Windows, `ntpath` also splits at `\` and treats drive letters specially; that is not modelled.
- `os.makedirs` and `open(..., "wb")` failures are not modelled: they are assumed to succeed. The same goes for any extra failure of `os.remove` inside a `finally` block.
- `Suggestions.MatchQuestion`: `\d` is modelled as ASCII `0`-`9`. Python's `\d` on `str` also matches other Unicode decimal digits.
- `App.Session.StreamAnswer`: a stream that raises midway is modelled as having no effect. The partially rendered text on screen is not modelled.
- The type of a `"context"` value is not modelled: it is taken to be a list of documents.
- The type of an `"answer"` value is not modelled: it is taken to be a string.
- Logging is left out.
