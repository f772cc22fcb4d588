/**
 The chat session of app.py. Streamlit keeps four entries in `st.session_state` and
 re-runs the whole script after every interaction; each method below is one
 interaction together with the re-run it triggers. Every outside service (transcripts,
 downloads, loaders, the splitter, Gemini, the answer chain) is a parameter.
 */
module App {
  import opened Wrappers
  import opened Text
  import opened Messages
  import opened FileSystem
  import VP = VideoProcessor
  import VS = VectorStore
  import opened Suggestions
  import opened DocumentUpload

  /** The prefix the answer prompt asks for when the answer comes from the retrieved context. */
  const ContextMarker := "Based on the provided context:"

  /** The chain `create_rag_chain(vector_store.as_retriever())` returns, determined by the store it retrieves from. */
  datatype Chain = RagChain(store: VS.Store)

  /** One dict yielded by `rag_chain.stream(...)`: it may carry an "answer" piece and a "context" list. */
  datatype StreamPiece = StreamPiece(answer: Option<string>, context: Option<seq<Document>>)

  /** Everything the stream yields, and whether it raised before it was exhausted. */
  datatype Stream = Stream(pieces: seq<StreamPiece>, raised: bool)

  /** The outside world, as the outcomes the core sees. */
  datatype Services = Services(
    fetch: string -> VP.FetchOutcome,             // YouTubeTranscriptApi().fetch(video_id)
    download: string -> VP.DownloadOutcome,       // yt_dlp download of the URL's audio
    whisper: VP.WhisperOutcome,                   // WhisperModel("base").transcribe("temp_audio.mp3")
    loadWebpage: string -> Option<seq<Document>>, // load_from_webpage; None when it raises
    loaders: Loaders,                             // load_from_pdf, load_from_docx
    md5: seq<byte> -> string,                     // hashlib.md5(content).hexdigest()
    split: VS.SplitDocuments,                     // RecursiveCharacterTextSplitter.split_documents
    index: VS.IndexChunks,                        // SentenceTransformerEmbeddings + Chroma.from_documents
    geminiReady: bool,                            // whether ChatGoogleGenerativeAI(...) can be built
    invoke: string -> LlmOutcome,                 // the suggestion model's reply to a prompt
    respond: (Chain, string, seq<Message>) -> Stream) // rag_chain.stream({"input": ..., "chat_history": ...})

  // ---------------------------------------------------------------------------
  // Folding the answer stream (app.py:150-155)
  // ---------------------------------------------------------------------------

  /** The text a piece adds to `full_response`: nothing unless its "answer" is a non-empty string. */
  function AnswerText(p: StreamPiece): string {
    match p.answer
    case Some(a) => a
    case None => ""
  }

  /** `if context_chunk := chunk.get("context")`: a context list that is present and non-empty. */
  predicate HasContext(p: StreamPiece) {
    p.context.Some? && p.context.value != []
  }

  /** `full_response` once the given pieces have been consumed. */
  function StreamedAnswer(pieces: seq<StreamPiece>): string
    decreases |pieces|
  {
    if pieces == [] then ""
    else StreamedAnswer(pieces[..|pieces| - 1]) + AnswerText(pieces[|pieces| - 1])
  }

  /** `context_docs` once the given pieces have been consumed. */
  function LastContext(pieces: seq<StreamPiece>): seq<Document>
    decreases |pieces|
  {
    if pieces == [] then []
    else if HasContext(pieces[|pieces| - 1]) then pieces[|pieces| - 1].context.value
    else LastContext(pieces[..|pieces| - 1])
  }

  /** The answer of a stream consumed in two parts is the two answers one after the other. */
  lemma {:induction false} StreamedAnswerAppend(first: seq<StreamPiece>, second: seq<StreamPiece>)
    ensures StreamedAnswer(first + second) == StreamedAnswer(first) + StreamedAnswer(second)
    decreases |second|
  {
    if second != [] {
      var init := second[..|second| - 1];
      assert (first + second)[..|first + second| - 1] == first + init;
      StreamedAnswerAppend(first, init);
    } else {
      assert first + second == first;
    }
  }

  /** The answer pieces in stream order. */
  function AnswerTexts(pieces: seq<StreamPiece>): (texts: seq<string>)
    ensures |texts| == |pieces|
    ensures forall i :: 0 <= i < |pieces| ==> texts[i] == AnswerText(pieces[i])
    decreases |pieces|
  {
    if pieces == [] then [] else [AnswerText(pieces[0])] + AnswerTexts(pieces[1..])
  }

  /** The final answer is the in-order concatenation of the answer pieces. */
  lemma {:induction false} StreamedAnswerIsConcat(pieces: seq<StreamPiece>)
    ensures StreamedAnswer(pieces) == Concat(AnswerTexts(pieces))
    decreases |pieces|
  {
    if pieces != [] {
      StreamedAnswerIsConcat(pieces[1..]);
      StreamedAnswerAppend([pieces[0]], pieces[1..]);
      assert [pieces[0]] + pieces[1..] == pieces;
      assert StreamedAnswer([pieces[0]]) == AnswerText(pieces[0]) by {
        assert [pieces[0]][..0] == [];
      }
    }
  }

  /** A partial answer that already starts with the context marker still does once more pieces arrive. */
  lemma MarkerSurvivesLaterPieces(pieces: seq<StreamPiece>, k: nat)
    requires k <= |pieces| && StartsWith(StreamedAnswer(pieces[..k]), ContextMarker)
    ensures StartsWith(StreamedAnswer(pieces), ContextMarker)
  {
    StreamedAnswerAppend(pieces[..k], pieces[k..]);
    assert pieces[..k] + pieces[k..] == pieces;
    StartsWithExtension(StreamedAnswer(pieces[..k]), StreamedAnswer(pieces[k..]), ContextMarker);
  }

  /** The context kept is that of the last piece carrying a non-empty one. */
  lemma {:induction false} LastContextIsLatest(pieces: seq<StreamPiece>, i: nat)
    requires i < |pieces| && HasContext(pieces[i])
    requires forall j :: i < j < |pieces| ==> !HasContext(pieces[j])
    ensures LastContext(pieces) == pieces[i].context.value
    decreases |pieces|
  {
    if i < |pieces| - 1 {
      var init := pieces[..|pieces| - 1];
      assert init[i] == pieces[i];
      assert forall j :: i < j < |init| ==> init[j] == pieces[j];
      LastContextIsLatest(init, i);
    }
  }

  /** The context is `[]` exactly when no piece carried a non-empty one. */
  lemma {:induction false} LastContextEmptyIff(pieces: seq<StreamPiece>)
    ensures LastContext(pieces) == [] <==> forall j :: 0 <= j < |pieces| ==> !HasContext(pieces[j])
    decreases |pieces|
  {
    if pieces != [] {
      var init := pieces[..|pieces| - 1];
      LastContextEmptyIff(init);
      assert forall j :: 0 <= j < |init| ==> init[j] == pieces[j];
    }
  }

  /** The loop of app.py:150-155. */
  method FoldStream(pieces: seq<StreamPiece>) returns (fullResponse: string, contextDocs: seq<Document>)
    ensures fullResponse == StreamedAnswer(pieces)
    ensures contextDocs == LastContext(pieces)
  {
    fullResponse, contextDocs := "", [];
    var i := 0;
    while i < |pieces|
      invariant 0 <= i <= |pieces|
      invariant fullResponse == StreamedAnswer(pieces[..i])
      invariant contextDocs == LastContext(pieces[..i])
    {
      var piece := pieces[i];
      assert pieces[..i + 1][..i] == pieces[..i];
      if piece.answer.Some? && piece.answer.value != "" {
        fullResponse := fullResponse + piece.answer.value;
      }
      if piece.context.Some? && piece.context.value != [] {
        contextDocs := piece.context.value;
      }
      i := i + 1;
    }
    assert pieces[..|pieces|] == pieces;
  }

  // ---------------------------------------------------------------------------
  // The "Show Sources" rule (app.py:138)
  // ---------------------------------------------------------------------------

  /** Sources are listed under a message only for an AI answer that starts with the marker and carries context. */
  predicate ShowsSources(m: Message) {
    m.AI? && StartsWith(m.content, ContextMarker) && m.context != []
  }

  /** For a streamed answer: sources show exactly when the text starts with the marker and some piece brought context. */
  lemma StreamedAnswerShowsSources(pieces: seq<StreamPiece>)
    ensures ShowsSources(AI(StreamedAnswer(pieces), LastContext(pieces)))
        <==> StartsWith(StreamedAnswer(pieces), ContextMarker)
             && exists j :: 0 <= j < |pieces| && HasContext(pieces[j])
  {
    LastContextEmptyIff(pieces);
  }

  // ---------------------------------------------------------------------------
  // Extracting a source (app.py:102-126)
  // ---------------------------------------------------------------------------

  /** The routing test of app.py:106. */
  predicate IsVideoUrl(url: string) {
    Contains(url, "youtube.com") || Contains(url, "youtu.be")
  }

  /** What `get_video_transcript(url)` returns when the disk holds `before`. */
  function TranscriptFor(url: string, s: Services, before: set<string>): Option<string> {
    match VP.TranscriptPlan(url, s.fetch)
    case Finished(t) => t
    case FallBackToAudio => VP.AudioTranscription(before, s.download(url), s.whisper)
  }

  /** The disk after `get_video_transcript(url)`. */
  function DiskAfterTranscript(url: string, s: Services, before: set<string>): set<string> {
    match VP.TranscriptPlan(url, s.fetch)
    case Finished(_) => before
    case FallBackToAudio => (before + s.download(url).created) - {VP.AudioFileMp3}
  }

  /**
   The `docs` of app.py:105-110; `None` when the web loader raises. A transcript becomes one
   document only when it is a non-empty string (`if transcript:`).
   */
  function UrlDocuments(url: string, s: Services, before: set<string>): Option<seq<Document>> {
    if IsVideoUrl(url) then
      var t := TranscriptFor(url, s, before);
      Some(if t.Some? && t.value != "" then [Document(t.value, map[])] else [])
    else s.loadWebpage(url)
  }

  /** A video link without `v=` (a youtu.be short link) yields no document, so nothing is ingested. */
  lemma VideoLinkWithoutMarkerYieldsNothing(url: string, s: Services, before: set<string>)
    requires IsVideoUrl(url) && !Contains(url, "v=")
    ensures UrlDocuments(url, s, before) == Some([])
    ensures DiskAfterTranscript(url, s, before) == before
  {
  }

  /** A file from `st.file_uploader`: its name, MIME type and bytes. */
  datatype UploadedFile = UploadedFile(name: string, fileType: string, content: seq<byte>)

  /** `[f.name for f in uploaded_files]`. */
  function FileNames(files: seq<UploadedFile>): (names: seq<string>)
    ensures |names| == |files|
    ensures forall i :: 0 <= i < |files| ==> names[i] == files[i].name
    decreases |files|
  {
    if files == [] then [] else [files[0].name] + FileNames(files[1..])
  }

  function LoadFile(f: UploadedFile, s: Services): Option<seq<Document>> {
    LoadByType(TempPath(s.md5, f.content, f.name), f.fileType, s.loaders)
  }

  /** `all_docs` after the loop of app.py:121-123; `None` once a loader raises, which ends the loop. */
  function ExtractedDocuments(files: seq<UploadedFile>, s: Services): Option<seq<Document>>
    decreases |files|
  {
    if files == [] then Some([])
    else match ExtractedDocuments(files[..|files| - 1], s)
      case None => None
      case Some(docs) =>
        match LoadFile(files[|files| - 1], s)
        case None => None
        case Some(more) => Some(docs + more)
  }

  /** Once a file fails, the whole upload fails, whatever comes after it. */
  lemma {:induction false} ExtractionFailureIsFinal(files: seq<UploadedFile>, k: nat, s: Services)
    requires k <= |files| && ExtractedDocuments(files[..k], s).None?
    ensures ExtractedDocuments(files, s).None?
    decreases |files| - k
  {
    if k < |files| {
      assert files[..k + 1][..k] == files[..k];
      ExtractionFailureIsFinal(files, k + 1, s);
    } else {
      assert files[..k] == files;
    }
  }

  /** The chain `process_new_source` installs, or `None` when the store or the chain raises. */
  function BuildChain(docs: seq<Document>, s: Services): (c: Option<Chain>)
    ensures c.Some? <==> && docs != [] && s.split(VS.Splitter, docs) != []
                         && s.index(VS.EmbeddingModel, s.split(VS.Splitter, docs)) && s.geminiReady
    ensures c.Some? ==> c.value.store.chunks == s.split(VS.Splitter, docs)
  {
    match VS.CreateVectorStore(docs, s.split, s.index)
    case Err(_) => None
    case Ok(store) => if s.geminiReady then Some(RagChain(store)) else None
  }

  /** How a click on "Process URL" or "Process Documents" ends. */
  datatype IngestOutcome =
    | MissingInput  // st.warning: no URL, or no file
    | NoContent     // st.error: nothing could be extracted
    | Ingested      // process_new_source finished, then st.rerun()
    | Raised        // an exception escaped the handler

  function IngestOutcomeFor(extracted: Option<seq<Document>>, s: Services): (o: IngestOutcome)
    ensures o != MissingInput
    ensures extracted.None? ==> o == Raised
    ensures o == NoContent <==> extracted == Some([])
    ensures o == Ingested <==> extracted.Some? && extracted.value != [] && BuildChain(extracted.value, s).Some?
  {
    match extracted
    case None => Raised
    case Some(docs) =>
      if docs == [] then NoContent
      else if BuildChain(docs, s).Some? then Ingested
      else Raised
  }

  /** The hash-named temporary files of the given uploads, none of which is the cache directory. */
  function TempPaths(files: seq<UploadedFile>, s: Services): (paths: set<string>)
    ensures forall j :: 0 <= j < |files| ==> TempPath(s.md5, files[j].content, files[j].name) in paths
    ensures TempDir !in paths
    decreases |files|
  {
    if files == [] then {}
    else
      var init := files[..|files| - 1];
      var last := files[|files| - 1];
      TempPathIsNotTempDir(s.md5, last.content, last.name);
      assert forall j :: 0 <= j < |init| ==> files[j] == init[j];
      TempPaths(init, s) + {TempPath(s.md5, last.content, last.name)}
  }

  /** The set holds nothing but the temporary paths of the given uploads. */
  lemma {:induction false} TempPathsExactly(files: seq<UploadedFile>, s: Services)
    ensures forall p :: p in TempPaths(files, s) <==>
              exists j :: 0 <= j < |files| && p == TempPath(s.md5, files[j].content, files[j].name)
    decreases |files|
  {
    if files != [] {
      var init := files[..|files| - 1];
      TempPathsExactly(init, s);
      forall p | p in TempPaths(files, s)
        ensures exists j :: 0 <= j < |files| && p == TempPath(s.md5, files[j].content, files[j].name)
      {
        if p in TempPaths(init, s) {
          var j :| 0 <= j < |init| && p == TempPath(s.md5, init[j].content, init[j].name);
          assert init[j] == files[j];
        } else {
          assert p == TempPath(s.md5, files[|files| - 1].content, files[|files| - 1].name);
        }
      }
    }
  }

  /** How many uploads reach a loader: all of them, or those up to and including the first whose loader raises. */
  function Attempted(files: seq<UploadedFile>, s: Services): (n: nat)
    ensures n <= |files|
    ensures files != [] ==> n >= 1
    decreases |files|
  {
    if files == [] then 0
    else if ExtractedDocuments(files[..|files| - 1], s).None? then Attempted(files[..|files| - 1], s)
    else |files|
  }

  /** When no loader raises, every upload was attempted. */
  lemma AttemptedAll(files: seq<UploadedFile>, s: Services)
    requires ExtractedDocuments(files, s).Some?
    ensures Attempted(files, s) == |files|
  {
  }

  /** When the loader of upload `i` raises, exactly the first `i + 1` uploads were attempted. */
  lemma {:induction false} AttemptedAfterFailure(files: seq<UploadedFile>, i: nat, s: Services)
    requires i < |files|
    requires ExtractedDocuments(files[..i], s).Some? && ExtractedDocuments(files[..i + 1], s).None?
    ensures Attempted(files, s) == i + 1
    decreases |files|
  {
    var init := files[..|files| - 1];
    if |files| == i + 1 {
      assert init == files[..i];
      assert ExtractedDocuments(init, s).Some?;
    } else {
      assert init[..i] == files[..i] && init[..i + 1] == files[..i + 1];
      ExtractionFailureIsFinal(init, i + 1, s);
      AttemptedAfterFailure(init, i, s);
      assert Attempted(files, s) == Attempted(init, s);
    }
  }

  /**
   The disk after uploads `files` have each been cached and removed again, one after the
   other, starting from `initial` (app.py:72-82 for each upload).
   */
  function DiskAfter(initial: set<string>, files: seq<UploadedFile>, s: Services): set<string>
    decreases |files|
  {
    if files == [] then initial
    else
      var last := files[|files| - 1];
      (DiskAfter(initial, files[..|files| - 1], s) + {TempDir}) - {TempPath(s.md5, last.content, last.name)}
  }

  /** Once any upload was handled, the disk is the old one with the cache directory and without any of their temporary files. */
  lemma {:induction false} DiskAfterIsExact(initial: set<string>, files: seq<UploadedFile>, s: Services)
    requires files != []
    ensures DiskAfter(initial, files, s) == (initial + {TempDir}) - TempPaths(files, s)
    decreases |files|
  {
    var init := files[..|files| - 1];
    if init != [] {
      DiskAfterIsExact(initial, init, s);
      assert TempDir !in TempPaths(init, s);
    }
  }

  /** No handled upload leaves its temporary file behind, and the cache directory stays. */
  lemma DiskAfterRemovesAll(initial: set<string>, files: seq<UploadedFile>, s: Services)
    requires files != []
    ensures TempDir in DiskAfter(initial, files, s)
    ensures forall j :: 0 <= j < |files| ==> TempPath(s.md5, files[j].content, files[j].name) !in DiskAfter(initial, files, s)
  {
    DiskAfterIsExact(initial, files, s);
  }

  /** One pass of the loop of app.py:120-123: upload `i` handled on top of the first `i`. */
  lemma ExtractStep(initial: set<string>, files: seq<UploadedFile>, i: nat, s: Services,
                    before: set<string>, after: set<string>, allDocs: seq<Document>, loaded: Option<seq<Document>>)
    requires i < |files|
    requires ExtractedDocuments(files[..i], s) == Some(allDocs) && before == DiskAfter(initial, files[..i], s)
    requires loaded == LoadFile(files[i], s)
    requires after == (before + {TempDir}) - {TempPath(s.md5, files[i].content, files[i].name)}
    ensures after == DiskAfter(initial, files[..i + 1], s)
    ensures loaded.None? ==> ExtractedDocuments(files[..i + 1], s).None?
    ensures loaded.Some? ==> ExtractedDocuments(files[..i + 1], s) == Some(allDocs + loaded.value)
  {
    assert files[..i + 1][..i] == files[..i];
  }

  /**
   The loop of app.py:120-123: each file is cached in the temporary directory, loaded and
   removed again; the first loader that raises ends the loop.
   */
  method ExtractAll(disk: Disk, files: seq<UploadedFile>, s: Services) returns (docs: Option<seq<Document>>)
    modifies disk
    ensures docs == ExtractedDocuments(files, s)
    ensures disk.paths == DiskAfter(old(disk.paths), files[..Attempted(files, s)], s)
  {
    var allDocs: seq<Document> := [];
    var i := 0;
    while i < |files|
      invariant 0 <= i <= |files|
      invariant ExtractedDocuments(files[..i], s) == Some(allDocs)
      invariant disk.paths == DiskAfter(old(disk.paths), files[..i], s)
    {
      var f := files[i];
      ghost var before := disk.paths;
      var loaded := LoadAndCacheDocument(disk, f.content, f.name, f.fileType, s.md5, s.loaders);
      ExtractStep(old(disk.paths), files, i, s, before, disk.paths, allDocs, loaded);
      if loaded.None? {
        AttemptedAfterFailure(files, i, s);
        ExtractionFailureIsFinal(files, i + 1, s);
        return None;
      }
      allDocs := allDocs + loaded.value;
      i := i + 1;
    }
    assert files[..|files|] == files;
    docs := Some(allDocs);
  }

  // ---------------------------------------------------------------------------
  // The session
  // ---------------------------------------------------------------------------

  /** The keys of `st.session_state` the script initialises. */
  datatype Key = RagChainKey | ChatHistoryKey | SuggestedQuestionsKey | SourceNameKey

  const AllKeys: set<Key> := {RagChainKey, ChatHistoryKey, SuggestedQuestionsKey, SourceNameKey}

  /** Questions at even positions, answers at odd ones: the history is Human, AI, Human, AI, ... */
  predicate Alternates(history: seq<Message>) {
    forall i :: 0 <= i < |history| ==> (history[i].Human? <==> i % 2 == 0)
  }

  class Session {
    /** The keys present in `st.session_state`; the four fields mean something only once their key is present. */
    var keys: set<Key>
    var ragChain: Option<Chain>
    var chatHistory: seq<Message>
    var suggestedQuestions: seq<string>
    var sourceName: string

    /** Initialised, there is a chain whenever there is history, and the history alternates. */
    ghost predicate Valid()
      reads this
    {
      && keys == AllKeys
      && (chatHistory != [] ==> ragChain.Some?)
      && Alternates(chatHistory)
    }

    /** The last message is a question still waiting for its answer: the condition of app.py:146. */
    predicate AwaitingAnswer()
      reads this
    {
      ragChain.Some? && chatHistory != [] && chatHistory[|chatHistory| - 1].Human?
    }

    /** A new browser session: `st.session_state` holds no keys yet. */
    constructor ()
      ensures keys == {}
    {
      keys := {};
      ragChain, chatHistory, suggestedQuestions, sourceName := None, [], [], "";
    }

    /** app.py:44-51, run at the top of every script run: each key is set only when it is absent. */
    method Initialise()
      modifies this
      ensures keys == AllKeys
      ensures ragChain == if RagChainKey in old(keys) then old(ragChain) else None
      ensures chatHistory == if ChatHistoryKey in old(keys) then old(chatHistory) else []
      ensures suggestedQuestions == if SuggestedQuestionsKey in old(keys) then old(suggestedQuestions) else []
      ensures sourceName == if SourceNameKey in old(keys) then old(sourceName) else ""
      ensures old(keys) == {} || old(Valid()) ==> Valid()
    {
      if RagChainKey !in keys {
        ragChain := None;
        keys := keys + {RagChainKey};
      }
      if ChatHistoryKey !in keys {
        chatHistory := [];
        keys := keys + {ChatHistoryKey};
      }
      if SuggestedQuestionsKey !in keys {
        suggestedQuestions := [];
        keys := keys + {SuggestedQuestionsKey};
      }
      if SourceNameKey !in keys {
        sourceName := "";
        keys := keys + {SourceNameKey};
      }
      forall k | k in keys ensures k in AllKeys {
        match k
        case RagChainKey =>
        case ChatHistoryKey =>
        case SuggestedQuestionsKey =>
        case SourceNameKey =>
      }
    }

    /** `process_new_source`: build the store and the chain first; only then replace the session's contents. */
    method ProcessNewSource(docs: seq<Document>, name: string, s: Services) returns (ok: bool)
      requires Valid()
      modifies this
      ensures Valid()
      ensures ok == BuildChain(docs, s).Some?
      ensures ok ==> && ragChain == BuildChain(docs, s) && chatHistory == [] && sourceName == name
                     && suggestedQuestions == GenerateSuggestedQuestions(docs, s.invoke)
      ensures keys == old(keys)
      ensures !ok ==> unchanged(this)
    {
      var store := VS.CreateVectorStore(docs, s.split, s.index);
      if store.Err? {
        // the exception from create_vector_store propagates out of process_new_source
        return false;
      }
      if !s.geminiReady {
        // create_rag_chain re-raises the model's construction error
        return false;
      }
      ragChain := Some(RagChain(store.value));
      chatHistory := [];
      sourceName := name;
      suggestedQuestions := GenerateSuggestedQuestions(docs, s.invoke);
      ok := true;
    }

    /** A click on "Process URL" (app.py:102-113). */
    method ProcessUrl(disk: Disk, url: string, s: Services) returns (outcome: IngestOutcome)
      requires Valid()
      modifies this, disk
      ensures Valid() && keys == old(keys)
      ensures url == "" ==> outcome == MissingInput && disk.paths == old(disk.paths)
      ensures url != "" ==> outcome == IngestOutcomeFor(UrlDocuments(url, s, old(disk.paths)), s)
      ensures url != "" ==>
        disk.paths == if IsVideoUrl(url) then DiskAfterTranscript(url, s, old(disk.paths)) else old(disk.paths)
      ensures outcome == Ingested ==>
        var docs := UrlDocuments(url, s, old(disk.paths)).value;
        && ragChain == BuildChain(docs, s) && chatHistory == [] && sourceName == url
        && suggestedQuestions == GenerateSuggestedQuestions(docs, s.invoke)
      ensures outcome != Ingested ==> unchanged(this)
    {
      if url == "" {
        return MissingInput;
      }
      var docs: seq<Document> := [];
      if Contains(url, "youtube.com") || Contains(url, "youtu.be") {
        var transcript := VP.GetVideoTranscript(disk, url, s.fetch, s.download, s.whisper);
        if transcript.Some? && transcript.value != "" {
          docs := [Document(transcript.value, map[])];
        }
      } else {
        var loaded := s.loadWebpage(url);
        if loaded.None? {
          return Raised;
        }
        docs := loaded.value;
      }
      if docs == [] {
        return NoContent;
      }
      var ok := ProcessNewSource(docs, url, s);
      outcome := if ok then Ingested else Raised;
    }

    /** A click on "Process Documents" (app.py:116-126). */
    method ProcessDocuments(disk: Disk, files: seq<UploadedFile>, s: Services) returns (outcome: IngestOutcome)
      requires Valid()
      modifies this, disk
      ensures Valid() && keys == old(keys)
      ensures files == [] ==> outcome == MissingInput && disk.paths == old(disk.paths)
      ensures files != [] ==> outcome == IngestOutcomeFor(ExtractedDocuments(files, s), s)
      ensures outcome == Ingested ==>
        var docs := ExtractedDocuments(files, s).value;
        && ragChain == BuildChain(docs, s) && chatHistory == [] && sourceName == Join(FileNames(files), ", ")
        && suggestedQuestions == GenerateSuggestedQuestions(docs, s.invoke)
      ensures outcome != Ingested ==> unchanged(this)
      ensures files != [] ==> disk.paths == DiskAfter(old(disk.paths), files[..Attempted(files, s)], s)
    {
      if files == [] {
        return MissingInput;
      }
      var sourceLabel := Join(FileNames(files), ", ");
      var extracted := ExtractAll(disk, files, s);
      if extracted.None? {
        return Raised;
      }
      var allDocs := extracted.value;
      if allDocs == [] {
        return NoContent;
      }
      var ok := ProcessNewSource(allDocs, sourceLabel, s);
      outcome := if ok then Ingested else Raised;
    }

    /**
     Typing a question into the chat box (app.py:171-172). The box is on screen only while a
     chain exists and no answer is pending, since the streaming block runs first and re-runs.
     */
    method SubmitQuestion(prompt: string)
      requires Valid() && ragChain.Some? && !AwaitingAnswer()
      modifies this
      ensures Valid()
      ensures chatHistory == old(chatHistory) + if prompt != "" then [Human(prompt)] else []
      ensures keys == old(keys) && ragChain == old(ragChain)
      ensures suggestedQuestions == old(suggestedQuestions) && sourceName == old(sourceName)
    {
      if prompt != "" {
        chatHistory := chatHistory + [Human(prompt)];
      }
    }

    /** Clicking the button of suggestion `i` (app.py:166-168). */
    method ClickSuggestion(i: nat)
      requires Valid() && ragChain.Some? && !AwaitingAnswer() && i < |suggestedQuestions|
      modifies this
      ensures Valid()
      ensures chatHistory == old(chatHistory) + [Human(old(suggestedQuestions)[i])]
      ensures keys == old(keys) && ragChain == old(ragChain)
      ensures suggestedQuestions == old(suggestedQuestions) && sourceName == old(sourceName)
    {
      chatHistory := chatHistory + [Human(suggestedQuestions[i])];
    }

    /** The call of app.py:152: the last question, and the history before it. */
    function PendingStream(respond: (Chain, string, seq<Message>) -> Stream): Stream
      reads this
      requires AwaitingAnswer()
    {
      respond(ragChain.value, chatHistory[|chatHistory| - 1].content, chatHistory[..|chatHistory| - 1])
    }

    /**
     The streaming step (app.py:146-160): answer a pending question, append one AI message
     with the answer and its context, and clear the suggestions. A stream that raises
     appends nothing.
     */
    method StreamAnswer(respond: (Chain, string, seq<Message>) -> Stream) returns (answered: bool)
      requires Valid()
      modifies this
      ensures Valid()
      ensures answered <==> old(AwaitingAnswer()) && !old(PendingStream(respond)).raised
      ensures answered ==>
        var pieces := old(PendingStream(respond)).pieces;
        && chatHistory == old(chatHistory) + [AI(StreamedAnswer(pieces), LastContext(pieces))]
        && suggestedQuestions == []
        && keys == old(keys) && ragChain == old(ragChain) && sourceName == old(sourceName)
      ensures !answered ==> unchanged(this)
    {
      if !(ragChain.Some? && chatHistory != [] && chatHistory[|chatHistory| - 1].Human?) {
        return false;
      }
      var prompt := chatHistory[|chatHistory| - 1].content;
      var stream := respond(ragChain.value, prompt, chatHistory[..|chatHistory| - 1]);
      if stream.raised {
        return false;
      }
      var fullResponse, contextDocs := FoldStream(stream.pieces);
      chatHistory := chatHistory + [AI(fullResponse, contextDocs)];
      suggestedQuestions := [];
      answered := true;
    }

    /** A question typed into the chat box and the re-run that answers it: the history grows by a question and its answer. */
    method AskQuestion(prompt: string, respond: (Chain, string, seq<Message>) -> Stream) returns (answered: bool)
      requires Valid() && ragChain.Some? && !AwaitingAnswer() && prompt != ""
      modifies this
      ensures Valid()
      ensures var stream := respond(old(ragChain).value, prompt, old(chatHistory));
        && answered == !stream.raised
        && (answered ==>
              && chatHistory == old(chatHistory) + [Human(prompt), AI(StreamedAnswer(stream.pieces), LastContext(stream.pieces))]
              && |chatHistory| == |old(chatHistory)| + 2
              && suggestedQuestions == [])
        && (!answered ==> chatHistory == old(chatHistory) + [Human(prompt)] && suggestedQuestions == old(suggestedQuestions))
      ensures keys == old(keys) && ragChain == old(ragChain) && sourceName == old(sourceName)
    {
      SubmitQuestion(prompt);
      assert chatHistory[..|chatHistory| - 1] == old(chatHistory);
      answered := StreamAnswer(respond);
    }

    /** A click on suggestion `i` and the re-run that answers it. */
    method AskSuggestion(i: nat, respond: (Chain, string, seq<Message>) -> Stream) returns (answered: bool)
      requires Valid() && ragChain.Some? && !AwaitingAnswer() && i < |suggestedQuestions|
      modifies this
      ensures Valid()
      ensures var q := old(suggestedQuestions)[i]; var stream := respond(old(ragChain).value, q, old(chatHistory));
        && answered == !stream.raised
        && (answered ==>
              && chatHistory == old(chatHistory) + [Human(q), AI(StreamedAnswer(stream.pieces), LastContext(stream.pieces))]
              && suggestedQuestions == [])
        && (!answered ==> chatHistory == old(chatHistory) + [Human(q)] && suggestedQuestions == old(suggestedQuestions))
      ensures keys == old(keys) && ragChain == old(ragChain) && sourceName == old(sourceName)
    {
      ClickSuggestion(i);
      assert chatHistory[..|chatHistory| - 1] == old(chatHistory);
      answered := StreamAnswer(respond);
    }
  }

  /** The first run of the script in a new browser session: no chain, no history, no suggestions, no source name. */
  method StartSession() returns (session: Session)
    ensures fresh(session) && session.Valid()
    ensures session.ragChain == None && session.chatHistory == []
    ensures session.suggestedQuestions == [] && session.sourceName == ""
  {
    session := new Session();
    session.Initialise();
  }

  /** Later runs of the script leave an initialised session as it is. */
  method Rerun(session: Session)
    requires session.Valid()
    modifies session
    ensures session.keys == old(session.keys) && session.ragChain == old(session.ragChain)
    ensures session.chatHistory == old(session.chatHistory)
    ensures session.suggestedQuestions == old(session.suggestedQuestions)
    ensures session.sourceName == old(session.sourceName)
  {
    assert RagChainKey in session.keys && ChatHistoryKey in session.keys;
    assert SuggestedQuestionsKey in session.keys && SourceNameKey in session.keys;
    session.Initialise();
  }
}
