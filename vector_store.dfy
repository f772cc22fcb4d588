/**
 The guards of `create_vector_store` (src/vector_store.py). The text splitter and the
 embedding store are library code: the splitter is a parameter applied to the fixed
 configuration, and the store is recorded as the chunks it is built from.
 */
module VectorStore {
  import opened Wrappers
  import opened Messages

  /** `RecursiveCharacterTextSplitter(chunk_size=1000, chunk_overlap=200, length_function=len)`. */
  const ChunkSize := 1000
  const ChunkOverlap := 200

  /** `len` on a Python string: the number of code points. */
  datatype LengthFunction = CharacterCount

  datatype SplitterConfig = SplitterConfig(chunkSize: nat, chunkOverlap: nat, length: LengthFunction)

  const Splitter := SplitterConfig(ChunkSize, ChunkOverlap, CharacterCount)

  /** `SentenceTransformerEmbeddings(model_name="all-MiniLM-L6-v2")`. */
  const EmbeddingModel := "all-MiniLM-L6-v2"

  /** A Chroma store: the chunks it holds and the embedding model that indexed them. */
  datatype Store = Store(chunks: seq<Document>, embeddingModel: string)

  /**
   Why `create_vector_store` raises: the two `ValueError`s it raises itself, or an exception
   from loading the embedding model or from `Chroma.from_documents`.
   */
  datatype IndexError = EmptyDocuments | NoChunks | IndexingFailed

  /** `text_splitter.split_documents(documents)`, for a given splitter configuration. */
  type SplitDocuments = (SplitterConfig, seq<Document>) -> seq<Document>

  /**
   Whether `SentenceTransformerEmbeddings(model_name=...)` loads the named model and
   `Chroma.from_documents` indexes the given chunks with it without raising.
   */
  type IndexChunks = (string, seq<Document>) -> bool

  function CreateVectorStore(documents: seq<Document>, split: SplitDocuments, index: IndexChunks): (r: Result<Store, IndexError>)
    ensures documents == [] ==> r == Err(EmptyDocuments)
    ensures documents != [] && split(Splitter, documents) == [] ==> r == Err(NoChunks)
    ensures documents != [] && split(Splitter, documents) != [] && !index(EmbeddingModel, split(Splitter, documents))
            ==> r == Err(IndexingFailed)
    ensures r.Ok? <==> && documents != [] && split(Splitter, documents) != []
                       && index(EmbeddingModel, split(Splitter, documents))
    ensures r.Ok? ==> r.value.chunks == split(Splitter, documents) && r.value.embeddingModel == EmbeddingModel
  {
    if documents == [] then Err(EmptyDocuments)
    else
      var chunks := split(Splitter, documents);
      if chunks == [] then Err(NoChunks)
      else if !index(EmbeddingModel, chunks) then Err(IndexingFailed)
      else Ok(Store(chunks, EmbeddingModel))
  }
}
