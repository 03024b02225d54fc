/**
 * `PineconeDB`: the Pinecone backend behind the query command. It owns a client, creates
 * and fills an index exactly as the indexing script does, and answers a question from the
 * ten records nearest to the question's embedding.
 */
module PineconeDb {
  import opened Wrappers
  import opened Strings
  import opened Documents
  import opened Remote
  import opened Indexing
  import opened Retrieval
  import Create

  /** How many matches a query asks for. */
  const TopK: nat := 10

  /**
   * `match.metadata.pageContent` of each match, in rank order; a match without that key
   * contributes "", as `join` renders an undefined element.
   */
  function MatchContents(matches: seq<Match>): (contents: seq<string>)
    ensures |contents| == |matches|
    ensures forall i :: 0 <= i < |matches| ==>
              contents[i] == (if "pageContent" in matches[i].metadata then matches[i].metadata["pageContent"] else "")
  {
    seq(|matches|, i requires 0 <= i < |matches| =>
      if "pageContent" in matches[i].metadata then matches[i].metadata["pageContent"] else "")
  }

  /** `queryResult?.matches`: a missing match list contributes nothing. */
  function QueryContents(matches: Option<seq<Match>>): (contents: seq<string>)
    ensures matches.None? ==> contents == []
    ensures matches.Some? ==> |contents| == |matches.value|
  {
    match matches
    case None => []
    case Some(ms) => MatchContents(ms)
  }

  /**
   * A match whose metadata is that of a record the indexing loop wrote contributes the
   * chunk's original text, newlines included: only the embedding input had them replaced.
   */
  lemma MatchOfRecordGivesChunkText(m: Match, doc: Document, chunk: Chunk)
    requires m.metadata == RecordMetadata(doc, chunk)
    ensures MatchContents([m]) == [chunk.pageContent]
  {
  }

  class PineconeDB {
    const client: PineconeClient

    /** `new PineconeClient`, against a service that rejects `fails` and answers queries with `search`. */
    constructor (fails: Request -> bool, search: (map<string, VectorItem>, Embedding, nat) -> Option<seq<Match>>, store: Store)
      ensures fresh(client)
      ensures client.fails == fails && client.search == search && client.store == store && client.trace == []
    {
      client := new PineconeClient(fails, search, store);
    }

    method Init(apiKey: string, environment: string) returns (ok: bool)
      modifies client
      ensures ok == !client.fails(InitRequest(apiKey, environment))
      ensures client.trace == old(client.trace) + [Sent(InitRequest(apiKey, environment))]
      ensures client.store == old(client.store)
    {
      ok := client.Init(apiKey, environment);
    }

    /** The same steps as the script's `createIndex`, on this object's client. */
    method CreateIndex(indexName: string, vectorDimension: nat) returns (r: Outcome)
      modifies client
      ensures var e := CreateIndexEffect(old(client.store), client.fails, indexName, vectorDimension);
              client.store == e.store && client.trace == old(client.trace) + e.events && r == e.outcome
    {
      r := Create.CreateIndex(client, indexName, vectorDimension);
    }

    /** The same loop as the script's `updateIndex`, on this object's client. */
    method UpdateIndex(indexName: string, docs: seq<Document>,
                       splitter: string -> seq<Chunk>, embedder: seq<string> -> seq<Embedding>)
      returns (r: Outcome)
      requires EmbedsEach(embedder)
      modifies client
      ensures var e := Run(old(client.store), client.fails, PlannedUpserts(indexName, docs, splitter, embedder));
              client.store == e.store && client.trace == old(client.trace) + e.events && r == e.outcome
    {
      r := Create.UpdateIndex(client, indexName, docs, splitter, embedder);
    }

    /**
     * Embed the question, ask the index for the ten nearest records with their metadata,
     * and answer from their page contents. A rejected query throws; no matches means no
     * chain call and an undefined answer; otherwise the chain is called exactly once.
     */
    method Query(chain: StuffDocumentsChain, indexName: string, question: string, embedQuery: string -> Embedding)
      returns (r: Result<Option<string>, Request>)
      modifies client, chain
      ensures var q := QueryRequest(indexName, embedQuery(question), TopK, true);
              && client.store == old(client.store)
              && client.trace == old(client.trace) + [Sent(q)]
              && (client.fails(q) ==> r == Failure(q) && chain.calls == old(chain.calls))
              && (!client.fails(q) ==>
                    var contents := QueryContents(client.search(Stored(client.store, indexName), embedQuery(question), TopK));
                    && (contents == [] ==> r == Success(None) && chain.calls == old(chain.calls))
                    && (contents != [] ==>
                          var doc := Document(Join(contents, " "), map[]);
                          && r == Success(Some(chain.answer([doc], question)))
                          && chain.calls == old(chain.calls) + [ChainCall([doc], question)]))
    {
      var queryEmbedding := embedQuery(question);
      var ok, matches := client.Query(indexName, queryEmbedding, TopK, true);
      if !ok {
        return Failure(QueryRequest(indexName, queryEmbedding, TopK, true));
      }
      var answer := Answer(chain, QueryContents(matches), question);
      r := Success(answer);
    }
  }
}
