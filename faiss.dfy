/**
 * `FaissDB`: the in-memory Faiss backend. Its store is absent until an initialisation
 * succeeds; a failed initialisation is swallowed and leaves the store as it was, and a query
 * before any successful initialisation throws.
 */
module Faiss {
  import opened Wrappers
  import opened Strings
  import opened Documents
  import opened Retrieval

  /** A store built by `FaissStore.fromDocuments` from the split documents. */
  datatype FaissStore = FaissStore(documents: seq<Document>)

  const NotInitialized: string := "FaissDB not initialized"

  /**
   * The store an initialisation leaves: the newly built one when splitting and building
   * both succeed, otherwise the previous one.
   */
  function InitializedStore(previous: Option<FaissStore>, docs: seq<Document>,
                            splitDocuments: seq<Document> -> Result<seq<Document>, string>,
                            fromDocuments: seq<Document> -> Result<FaissStore, string>): (s: Option<FaissStore>)
    ensures s != previous ==> s.Some?
    ensures splitDocuments(docs).Failure? ==> s == previous
    ensures splitDocuments(docs).Success? && fromDocuments(splitDocuments(docs).value).Failure? ==> s == previous
    ensures splitDocuments(docs).Success? && fromDocuments(splitDocuments(docs).value).Success? ==>
              s == Some(fromDocuments(splitDocuments(docs).value).value)
  {
    match splitDocuments(docs)
    case Failure(_) => previous
    case Success(texts) =>
      match fromDocuments(texts)
      case Failure(_) => previous
      case Success(store) => Some(store)
  }

  /** Once initialised, a database stays initialised whatever later initialisations do. */
  lemma InitializedStays(previous: Option<FaissStore>, docs: seq<Document>,
                         splitDocuments: seq<Document> -> Result<seq<Document>, string>,
                         fromDocuments: seq<Document> -> Result<FaissStore, string>)
    requires previous.Some?
    ensures InitializedStore(previous, docs, splitDocuments, fromDocuments).Some?
  {
  }

  class FaissDB {
    var client: Option<FaissStore>

    constructor ()
      ensures client == None
    {
      client := None;
    }

    /**
     * Split the documents into chunks and build a store from them, embedding each chunk.
     * A failure of either step is caught and logged and leaves `client` unchanged.
     */
    method Init(docs: seq<Document>,
                splitDocuments: seq<Document> -> Result<seq<Document>, string>,
                fromDocuments: seq<Document> -> Result<FaissStore, string>)
      modifies this
      ensures client == InitializedStore(old(client), docs, splitDocuments, fromDocuments)
      ensures splitDocuments(docs).Failure? ==> client == old(client)
      ensures splitDocuments(docs).Success? && fromDocuments(splitDocuments(docs).value).Failure? ==> client == old(client)
      ensures splitDocuments(docs).Success? && fromDocuments(splitDocuments(docs).value).Success? ==>
                client == Some(fromDocuments(splitDocuments(docs).value).value)
    {
      var texts := splitDocuments(docs);
      if texts.Failure? {
        return;
      }
      var built := fromDocuments(texts.value);
      if built.Failure? {
        return;
      }
      client := Some(built.value);
    }

    /**
     * Throws while uninitialised. Otherwise searches the store for the question and answers
     * from the page contents of the results, in rank order: no results means no chain call
     * and an undefined answer; otherwise the chain is called exactly once.
     */
    method Query(chain: StuffDocumentsChain, question: string, similaritySearch: (FaissStore, string) -> seq<Document>)
      returns (r: Result<Option<string>, string>)
      modifies chain
      ensures client.None? ==> r == Failure(NotInitialized) && chain.calls == old(chain.calls)
      ensures client.Some? ==>
                var contents := PageContents(similaritySearch(client.value, question));
                && (contents == [] ==> r == Success(None) && chain.calls == old(chain.calls))
                && (contents != [] ==>
                      var doc := Document(Join(contents, " "), map[]);
                      && r == Success(Some(chain.answer([doc], question)))
                      && chain.calls == old(chain.calls) + [ChainCall([doc], question)])
    {
      if client.None? {
        return Failure(NotInitialized);
      }
      var queryResult := similaritySearch(client.value, question);
      var answer := Answer(chain, PageContents(queryResult), question);
      r := Success(answer);
    }
  }
}
