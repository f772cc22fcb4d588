/** The LangChain value types the core passes around. */
module Messages {

  /** `langchain.schema.document.Document`: extracted text with its metadata. */
  datatype Document = Document(pageContent: string, metadata: map<string, string>)

  /**
   A chat-history entry: `HumanMessage(content=...)`, or `AIMessage(content=...,
   additional_kwargs={"context": ...})` carrying the documents the answer was grounded on.
   */
  datatype Message = Human(content: string) | AI(content: string, context: seq<Document>)
}
