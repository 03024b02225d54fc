/** The values that flow through the pipeline: loaded documents, their chunks, and embeddings. */
module Documents {

  /** An embedding vector; its numbers are never inspected by the pipeline. */
  type Embedding = seq<real>

  /** LangChain `Document`: text plus string metadata (the loader sets `source`). */
  datatype Document = Document(pageContent: string, metadata: map<string, string>)

  /** The line range a chunk came from (`metadata.loc.lines` set by the text splitter). */
  datatype Loc = Loc(fromLine: nat, toLine: nat)

  /**
   * A chunk produced by `textSplitter.createDocuments([text])`: its text, and a metadata
   * object whose only key is `loc`.
   */
  datatype Chunk = Chunk(pageContent: string, loc: Loc)
}
