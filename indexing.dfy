/**
 * What indexing against Pinecone does, as values: the record built for each chunk, the
 * upsert requests a run issues, and the effect of the idempotent index creation. The
 * imperative loops in `Create` and `PineconeDb` are proved against these definitions.
 */
module Indexing {
  import opened Strings
  import opened Batching
  import opened Documents
  import opened Remote

  /** `CREATE_INDEX_TIMEOUT`: the fixed wait, in milliseconds, after creating an index. */
  const CreateIndexTimeout: nat := 60000

  /** The similarity metric of every index the pipeline creates. */
  const Metric: string := "cosine"

  /**
   * `document.metadata.source`, as a template literal renders it: a document the loader
   * gave no source renders as "undefined".
   */
  function Source(doc: Document): (source: string)
    ensures "source" in doc.metadata ==> source == doc.metadata["source"]
    ensures "source" !in doc.metadata ==> source == "undefined"
  {
    if "source" in doc.metadata then doc.metadata["source"] else "undefined"
  }

  /** The record id `${txtPath}-${i}` of chunk `i` of a document. */
  function ChunkId(source: string, i: nat): (id: string)
    ensures |id| > |source| + 1 && id[..|source|] == source && id[|source|] == '-'

  {
    source + "-" + NatToString(i)
  }

  /** An id names its source and, after the dash, the chunk ordinal, which reads back exactly. */
  lemma ChunkIdParses(source: string, i: nat)
    ensures |ChunkId(source, i)| > |source| + 1
    ensures ChunkId(source, i)[..|source| + 1] == source + "-"
    ensures IsDigits(ChunkId(source, i)[|source| + 1..])
    ensures ParseNat(ChunkId(source, i)[|source| + 1..]) == i
  {
    assert ChunkId(source, i)[|source| + 1..] == NatToString(i);
    ParseNatToString(i);
  }

  /** Within one document, different ordinals give different ids. */
  lemma ChunkIdsDistinct(source: string, i: nat, j: nat)
    ensures ChunkId(source, i) == ChunkId(source, j) ==> i == j
  {
    ChunkIdParses(source, i);
    ChunkIdParses(source, j);
  }

  /**
   * Ids are unique across documents too: the ordinal is all digits, so the last dash of an id
   * is the one after the source, and both the source and the ordinal can be read back.
   */
  lemma ChunkIdInjective(source1: string, i1: nat, source2: string, i2: nat)
    requires ChunkId(source1, i1) == ChunkId(source2, i2)
    ensures source1 == source2 && i1 == i2
  {
    // the dash that follows the other source cannot fall among the digits of this ordinal
    if |source1| != |source2| {
      assert false;
    }
    assert source1 == ChunkId(source1, i1)[..|source1|] == source2;
    ChunkIdsDistinct(source1, i1, i2);
  }

  /** `JSON.stringify(chunk.metadata.loc)` for a `{ lines: { from, to } }` location. */
  function LocJson(loc: Loc): (json: string)
    ensures |json| > 2 && json[0] == '{' && json[|json| - 1] == '}'
  {
    "{\"lines\":{\"from\":" + NatToString(loc.fromLine) + ",\"to\":" + NatToString(loc.toLine) + "}}"
  }

  /** `chunks.map(chunk => chunk.pageContent.replace(/\n/g, ' '))`: what is sent to the embedder. */
  function EmbeddingInputs(chunks: seq<Chunk>): (texts: seq<string>)
    ensures |texts| == |chunks|
    ensures forall i :: 0 <= i < |chunks| ==> |texts[i]| == |chunks[i].pageContent| && '\n' !in texts[i]
  {
    seq(|chunks|, i requires 0 <= i < |chunks| => ReplaceNewlines(chunks[i].pageContent))
  }

  /**
   * `{ ...chunk.metadata, loc: JSON.stringify(chunk.metadata.loc), pageContent, txtPath }`;
   * a `txtPath` that is undefined is dropped when the record is serialised.
   */
  function RecordMetadata(doc: Document, chunk: Chunk): (m: map<string, string>)
    ensures m.Keys == {"loc", "pageContent"} + (if "source" in doc.metadata then {"txtPath"} else {})
    ensures m["pageContent"] == chunk.pageContent && m["loc"] == LocJson(chunk.loc)
    ensures "txtPath" in m ==> m["txtPath"] == doc.metadata["source"]
  {
    var m := map["loc" := LocJson(chunk.loc), "pageContent" := chunk.pageContent];
    if "source" in doc.metadata then m["txtPath" := doc.metadata["source"]] else m
  }

  /** The records of one document, in chunk order. */
  function Records(doc: Document, chunks: seq<Chunk>, embeddings: seq<Embedding>): (recs: seq<VectorItem>)
    requires |embeddings| == |chunks|
    ensures |recs| == |chunks|
    ensures forall i :: 0 <= i < |chunks| ==>
              recs[i].id == ChunkId(Source(doc), i) && recs[i].values == embeddings[i]
              && recs[i].metadata == RecordMetadata(doc, chunks[i])
  {
    seq(|chunks|, i requires 0 <= i < |chunks| =>
      VectorItem(ChunkId(Source(doc), i), embeddings[i], RecordMetadata(doc, chunks[i])))
  }

  /** The embedder answers one vector per input text, in order. */
  ghost predicate EmbedsEach(embedder: seq<string> -> seq<Embedding>)
  {
    forall texts :: |embedder(texts)| == |texts|
  }

  function DocumentRecords(doc: Document, splitter: string -> seq<Chunk>, embedder: seq<string> -> seq<Embedding>): seq<VectorItem>
    requires EmbedsEach(embedder)
  {
    var chunks := splitter(doc.pageContent);
    Records(doc, chunks, embedder(EmbeddingInputs(chunks)))
  }

  function UpsertsOf(indexName: string, batches: seq<seq<VectorItem>>): seq<Request>
  {
    seq(|batches|, k requires 0 <= k < |batches| => UpsertRequest(indexName, batches[k]))
  }

  /** The upsert requests the loop issues for one document. */
  function DocumentUpserts(indexName: string, doc: Document, splitter: string -> seq<Chunk>, embedder: seq<string> -> seq<Embedding>): (reqs: seq<Request>)
    requires EmbedsEach(embedder)
    ensures UpsertsInto(reqs, indexName)
    ensures |reqs| == CeilDiv(|splitter(doc.pageContent)|)
  {
    var recs := DocumentRecords(doc, splitter, embedder);
    BatchesCount(recs);
    UpsertsOf(indexName, Batches(recs))
  }

  /** The upsert requests an update of `docs` issues when the service accepts them all. */
  function PlannedUpserts(indexName: string, docs: seq<Document>, splitter: string -> seq<Chunk>, embedder: seq<string> -> seq<Embedding>): (reqs: seq<Request>)
    requires EmbedsEach(embedder)
    ensures UpsertsInto(reqs, indexName)
    decreases |docs|
  {
    if docs == [] then []
    else
      PlannedUpserts(indexName, docs[..|docs| - 1], splitter, embedder)
      + DocumentUpserts(indexName, docs[|docs| - 1], splitter, embedder)
  }

  /** The payloads of a sequence of upserts. */
  function Payloads(reqs: seq<Request>): seq<seq<VectorItem>>
    requires forall k :: 0 <= k < |reqs| ==> reqs[k].UpsertRequest?
  {
    seq(|reqs|, k requires 0 <= k < |reqs| => reqs[k].vectors)
  }

  /**
   * Chunk `i` of a document becomes the record with id `${source}-${i}`, the embedding the
   * embedder returned for position `i`, whose input was the chunk text with every newline
   * replaced by a space, and metadata that keeps the unmodified text.
   */
  lemma DocumentRecordsAt(doc: Document, splitter: string -> seq<Chunk>, embedder: seq<string> -> seq<Embedding>, i: nat)
    requires EmbedsEach(embedder)
    requires i < |splitter(doc.pageContent)|
    ensures var chunks := splitter(doc.pageContent);
            var texts := EmbeddingInputs(chunks);
            var recs := DocumentRecords(doc, splitter, embedder);
            && |texts| == |chunks| == |recs|
            && texts[i] == ReplaceNewlines(chunks[i].pageContent) && '\n' !in texts[i]
            && recs[i].id == ChunkId(Source(doc), i)
            && recs[i].values == embedder(texts)[i]
            && recs[i].metadata["pageContent"] == chunks[i].pageContent
            && recs[i].metadata["loc"] == LocJson(chunks[i].loc)
            && ("source" in doc.metadata ==> recs[i].metadata["txtPath"] == doc.metadata["source"])
  {
  }

  /** The records of one document have pairwise distinct ids. */
  lemma RecordIdsDistinct(doc: Document, chunks: seq<Chunk>, embeddings: seq<Embedding>)
    requires |embeddings| == |chunks|
    ensures forall i, j :: 0 <= i < j < |chunks| ==> Records(doc, chunks, embeddings)[i].id != Records(doc, chunks, embeddings)[j].id
  {
    var recs := Records(doc, chunks, embeddings);
    forall i, j | 0 <= i < j < |chunks|
      ensures recs[i].id != recs[j].id
    {
      ChunkIdsDistinct(Source(doc), i, j);
    }
  }

  /** Records of two documents with different sources never share an id. */
  lemma RecordIdsUniqueAcrossDocuments(doc1: Document, chunks1: seq<Chunk>, embeddings1: seq<Embedding>, doc2: Document, chunks2: seq<Chunk>, embeddings2: seq<Embedding>)
    requires |embeddings1| == |chunks1| && |embeddings2| == |chunks2|
    requires Source(doc1) != Source(doc2)
    ensures forall i, j :: 0 <= i < |chunks1| && 0 <= j < |chunks2| ==>
              Records(doc1, chunks1, embeddings1)[i].id != Records(doc2, chunks2, embeddings2)[j].id
  {
    forall i, j | 0 <= i < |chunks1| && 0 <= j < |chunks2|
      ensures ChunkId(Source(doc1), i) != ChunkId(Source(doc2), j)
    {
      if ChunkId(Source(doc1), i) == ChunkId(Source(doc2), j) {
        ChunkIdInjective(Source(doc1), i, Source(doc2), j);
      }
    }
  }

  /**
   * A document with n chunks is written in ceil(n/100) upserts into the named index, each of
   * 1 to 100 records, all but the last of exactly 100; concatenated, their payloads are the
   * document's records in chunk order. A document without chunks issues no upsert.
   */
  lemma DocumentUpsertsBatching(indexName: string, doc: Document, splitter: string -> seq<Chunk>, embedder: seq<string> -> seq<Embedding>)
    requires EmbedsEach(embedder)
    ensures var n := |splitter(doc.pageContent)|;
            var reqs := DocumentUpserts(indexName, doc, splitter, embedder);
            && UpsertsInto(reqs, indexName)
            && |reqs| == CeilDiv(n)
            && (n == 0 ==> reqs == [])
            && (forall k :: 0 <= k < |reqs| ==> 0 < |reqs[k].vectors| <= BatchSize)
            && (forall k :: 0 <= k < |reqs| - 1 ==> |reqs[k].vectors| == BatchSize)
            && Flatten(Payloads(reqs)) == DocumentRecords(doc, splitter, embedder)
  {
    var recs := DocumentRecords(doc, splitter, embedder);
    var reqs := DocumentUpserts(indexName, doc, splitter, embedder);
    BatchesCount(recs);
    BatchesSizes(recs);
    BatchesFlatten(recs);
    assert Payloads(reqs) == Batches(recs);
  }

  /** Appending documents appends their upserts. */
  lemma {:induction false} PlannedUpsertsAppend(indexName: string, a: seq<Document>, b: seq<Document>, splitter: string -> seq<Chunk>, embedder: seq<string> -> seq<Embedding>)
    requires EmbedsEach(embedder)
    ensures PlannedUpserts(indexName, a + b, splitter, embedder)
         == PlannedUpserts(indexName, a, splitter, embedder) + PlannedUpserts(indexName, b, splitter, embedder)
    decreases |b|
  {
    if b == [] {
      assert a + b == a;
    } else {
      var init, last := b[..|b| - 1], b[|b| - 1];
      assert (a + b)[..|a + b| - 1] == a + init && (a + b)[|a + b| - 1] == last;
      PlannedUpsertsAppend(indexName, a, init, splitter, embedder);
      ConcatAssociative(PlannedUpserts(indexName, a, splitter, embedder), PlannedUpserts(indexName, init, splitter, embedder),
                        DocumentUpserts(indexName, last, splitter, embedder));
    }
  }

  /**
   * Batches never mix documents: every request of a run is an upsert into the named index
   * whose records all come from one document.
   */
  lemma {:induction false} PlannedUpsertsKeepDocumentsApart(indexName: string, docs: seq<Document>, splitter: string -> seq<Chunk>, embedder: seq<string> -> seq<Embedding>)
    requires EmbedsEach(embedder)
    ensures var reqs := PlannedUpserts(indexName, docs, splitter, embedder);
            && UpsertsInto(reqs, indexName)
            && forall k :: 0 <= k < |reqs| ==>
                 exists d :: d in docs && forall v :: v in reqs[k].vectors ==> v in DocumentRecords(d, splitter, embedder)
    decreases |docs|
  {
    if docs != [] {
      var init := docs[..|docs| - 1];
      var last := docs[|docs| - 1];
      PlannedUpsertsKeepDocumentsApart(indexName, init, splitter, embedder);
      var before := PlannedUpserts(indexName, init, splitter, embedder);
      var mine := DocumentUpserts(indexName, last, splitter, embedder);
      var recs := DocumentRecords(last, splitter, embedder);
      var reqs := before + mine;
      BatchesFlatten(recs);
      forall k | 0 <= k < |reqs|
        ensures reqs[k].UpsertRequest? && reqs[k].index == indexName
        ensures exists d :: d in docs && forall v :: v in reqs[k].vectors ==> v in DocumentRecords(d, splitter, embedder)
      {
        if k < |before| {
          assert reqs[k] == before[k];
          var d :| d in init && forall v :: v in before[k].vectors ==> v in DocumentRecords(d, splitter, embedder);
          assert d in docs;
        } else {
          var m := k - |before|;
          assert reqs[k] == mine[m] == UpsertRequest(indexName, Batches(recs)[m]);
          FlattenContains(Batches(recs), m);
          assert last in docs;
        }
      }
    }
  }

  lemma {:induction false} FlattenContains<T>(bs: seq<seq<T>>, m: nat)
    requires m < |bs|
    ensures forall v :: v in bs[m] ==> v in Flatten(bs)
    decreases m
  {
    if m > 0 {
      FlattenContains(bs[1..], m - 1);
    }
  }

  /**
   * Re-running an update on the same documents, with every request accepted, sends the same
   * requests again and leaves the index exactly as the first run left it: the ids depend only
   * on source and ordinal, so the second run overwrites the first run's records.
   */
  lemma ReindexingIsIdempotent(st: Store, fails: Request -> bool, indexName: string, docs: seq<Document>, splitter: string -> seq<Chunk>, embedder: seq<string> -> seq<Embedding>)
    requires EmbedsEach(embedder)
    requires NoneFail(fails, PlannedUpserts(indexName, docs, splitter, embedder))
    ensures var reqs := PlannedUpserts(indexName, docs, splitter, embedder);
            var first := Run(st, fails, reqs);
            var second := Run(first.store, fails, reqs);
            second.store == first.store && second.events == first.events && second.outcome == Done
  {
    var reqs := PlannedUpserts(indexName, docs, splitter, embedder);
    PlannedUpsertsKeepDocumentsApart(indexName, docs, splitter, embedder);
    RunAccepted(st, fails, reqs);
    RunAccepted(ApplyAll(st, reqs), fails, reqs);
    UpsertsIdempotent(st, reqs, indexName);
  }

  /** Two batches whose ids agree position by position write the same set of ids. */
  lemma BatchIdsAgree(b1: seq<VectorItem>, b2: seq<VectorItem>)
    requires |b1| == |b2| && forall j :: 0 <= j < |b1| ==> b1[j].id == b2[j].id
    ensures ItemsById(b1).Keys == ItemsById(b2).Keys
  {
    forall x | x in ItemsById(b1).Keys
      ensures x in ItemsById(b2).Keys
    {
      var j :| 0 <= j < |b1| && b1[j].id == x;
      assert b2[j] in b2;
    }
    forall x | x in ItemsById(b2).Keys
      ensures x in ItemsById(b1).Keys
    {
      var j :| 0 <= j < |b2| && b2[j].id == x;
      assert b1[j] in b1;
    }
  }

  /**
   * The ids a document's upserts write do not depend on the embedder: two embedders give the
   * same number of upserts, into the same index, writing the same ids request by request.
   */
  lemma DocumentUpsertsSameIds(indexName: string, doc: Document, splitter: string -> seq<Chunk>,
                               embedder1: seq<string> -> seq<Embedding>, embedder2: seq<string> -> seq<Embedding>)
    requires EmbedsEach(embedder1) && EmbedsEach(embedder2)
    ensures SameIds(DocumentUpserts(indexName, doc, splitter, embedder1), DocumentUpserts(indexName, doc, splitter, embedder2))
  {
    var recs1 := DocumentRecords(doc, splitter, embedder1);
    var recs2 := DocumentRecords(doc, splitter, embedder2);
    assert |recs1| == |recs2|;
    BatchesCount(recs1);
    BatchesCount(recs2);
    var reqs1 := DocumentUpserts(indexName, doc, splitter, embedder1);
    var reqs2 := DocumentUpserts(indexName, doc, splitter, embedder2);
    forall k | 0 <= k < |reqs1|
      ensures ItemsById(reqs1[k].vectors).Keys == ItemsById(reqs2[k].vectors).Keys
    {
      var b1 := Batches(recs1)[k];
      var b2 := Batches(recs2)[k];
      BatchesAt(recs1, k);
      BatchesAt(recs2, k);
      forall j | 0 <= j < |b1|
        ensures b1[j].id == b2[j].id
      {
        assert b1[j] == recs1[k * BatchSize + j] && b2[j] == recs2[k * BatchSize + j];
      }
      BatchIdsAgree(b1, b2);
    }
  }

  /** The ids a whole update writes do not depend on the embedder. */
  lemma {:induction false} PlannedUpsertsSameIds(indexName: string, docs: seq<Document>, splitter: string -> seq<Chunk>,
                                                 embedder1: seq<string> -> seq<Embedding>, embedder2: seq<string> -> seq<Embedding>)
    requires EmbedsEach(embedder1) && EmbedsEach(embedder2)
    ensures SameIds(PlannedUpserts(indexName, docs, splitter, embedder1), PlannedUpserts(indexName, docs, splitter, embedder2))
    decreases |docs|
  {
    if docs != [] {
      var init := docs[..|docs| - 1];
      PlannedUpsertsSameIds(indexName, init, splitter, embedder1, embedder2);
      DocumentUpsertsSameIds(indexName, docs[|docs| - 1], splitter, embedder1, embedder2);
      SameIdsAppend(PlannedUpserts(indexName, init, splitter, embedder1), PlannedUpserts(indexName, init, splitter, embedder2),
                    DocumentUpserts(indexName, docs[|docs| - 1], splitter, embedder1),
                    DocumentUpserts(indexName, docs[|docs| - 1], splitter, embedder2));
    }
  }

  /**
   * Re-running an update on the same documents, even when the embedding service now returns
   * different vectors, sends as many upserts as the first run and leaves the index with exactly
   * the ids the first run left: every id is overwritten, none is added, none duplicated.
   */
  lemma ReindexingKeepsIds(st: Store, fails: Request -> bool, indexName: string, docs: seq<Document>, splitter: string -> seq<Chunk>,
                           embedder1: seq<string> -> seq<Embedding>, embedder2: seq<string> -> seq<Embedding>)
    requires EmbedsEach(embedder1) && EmbedsEach(embedder2)
    requires NoneFail(fails, PlannedUpserts(indexName, docs, splitter, embedder1))
    requires NoneFail(fails, PlannedUpserts(indexName, docs, splitter, embedder2))
    ensures var reqs1 := PlannedUpserts(indexName, docs, splitter, embedder1);
            var reqs2 := PlannedUpserts(indexName, docs, splitter, embedder2);
            var first := Run(st, fails, reqs1);
            var second := Run(first.store, fails, reqs2);
            && |reqs2| == |reqs1|
            && first.outcome == Done && second.outcome == Done
            && Stored(second.store, indexName).Keys == Stored(first.store, indexName).Keys
  {
    var reqs1 := PlannedUpserts(indexName, docs, splitter, embedder1);
    var reqs2 := PlannedUpserts(indexName, docs, splitter, embedder2);
    PlannedUpsertsKeepDocumentsApart(indexName, docs, splitter, embedder1);
    PlannedUpsertsKeepDocumentsApart(indexName, docs, splitter, embedder2);
    PlannedUpsertsSameIds(indexName, docs, splitter, embedder1, embedder2);
    RunAccepted(st, fails, reqs1);
    var once := ApplyAll(st, reqs1);
    RunAccepted(once, fails, reqs2);
    SameIdsKeepKeys(st, reqs1, reqs2, indexName);
  }

  /**
   * `createIndex`: list the indexes; if the name is among them, stop; otherwise send one
   * create request with the cosine metric and then wait `CREATE_INDEX_TIMEOUT` once.
   * A rejected request throws and ends the operation.
   */
  function CreateIndexEffect(st: Store, fails: Request -> bool, indexName: string, dimension: nat): (e: Effect)
    ensures |e.events| >= 1 && e.events[0] == Sent(ListIndexesRequest)
    ensures e.outcome.Done? <==>
              !fails(ListIndexesRequest) && (indexName in st.indexes || !fails(CreateIndexRequest(indexName, dimension, Metric)))
    ensures e.outcome.Done? ==> indexName in e.store.indexes
    ensures e.outcome.Failed? ==> e.store == st
  {
    var list := ListIndexesRequest;
    if fails(list) then Effect(st, [Sent(list)], Failed(list))
    else if indexName in st.indexes then Effect(st, [Sent(list)], Done)
    else
      var create := CreateIndexRequest(indexName, dimension, Metric);
      if fails(create) then Effect(st, [Sent(list), Sent(create)], Failed(create))
      else Effect(Apply(st, create), [Sent(list), Sent(create), Waited(CreateIndexTimeout)], Done)
  }

  /** How many create requests a trace holds. */
  function CreateRequests(events: seq<Event>): nat
  {
    if events == [] then 0
    else (if events[0].Sent? && events[0].request.CreateIndexRequest? then 1 else 0) + CreateRequests(events[1..])
  }

  /** How many waits a trace holds. */
  function Waits(events: seq<Event>): nat
  {
    if events == [] then 0 else (if events[0].Waited? then 1 else 0) + Waits(events[1..])
  }

  /** An index that already exists is neither created again nor waited for. */
  lemma CreateIndexShortCircuits(st: Store, fails: Request -> bool, indexName: string, dimension: nat)
    requires indexName in st.indexes && !fails(ListIndexesRequest)
    ensures CreateIndexEffect(st, fails, indexName, dimension) == Effect(st, [Sent(ListIndexesRequest)], Done)
    ensures CreateRequests(CreateIndexEffect(st, fails, indexName, dimension).events) == 0
    ensures Waits(CreateIndexEffect(st, fails, indexName, dimension).events) == 0
  {
    assert [Sent(ListIndexesRequest)][1..] == [];
  }

  /**
   * A missing index is created by exactly one request, with the given name and dimension and
   * the cosine metric; exactly one wait of 60000 ms follows it when the service accepts it, and
   * none when it does not. Afterwards the name is listed exactly when the outcome is normal.
   */
  lemma CreateIndexCreatesOnce(st: Store, fails: Request -> bool, indexName: string, dimension: nat)
    requires indexName !in st.indexes && !fails(ListIndexesRequest)
    ensures var e := CreateIndexEffect(st, fails, indexName, dimension);
            var create := CreateIndexRequest(indexName, dimension, "cosine");
            && e.events[..2] == [Sent(ListIndexesRequest), Sent(create)]
            && CreateRequests(e.events) == 1
            && Waits(e.events) == (if fails(create) then 0 else 1)
            && (e.outcome.Done? ==> e.events[|e.events| - 1] == Waited(60000))
            && (e.outcome.Done? <==> indexName in e.store.indexes)
  {
    var e := CreateIndexEffect(st, fails, indexName, dimension);
    var create := CreateIndexRequest(indexName, dimension, "cosine");
    var tail := if fails(create) then [] else [Waited(60000)];
    assert tail == [] || tail[1..] == [];
    assert CreateRequests(tail) == 0 && Waits(tail) == |tail|;
    var last := [Sent(create)] + tail;
    assert last[1..] == tail;
    assert CreateRequests(last) == 1 && Waits(last) == |tail|;
    assert e.events == [Sent(ListIndexesRequest)] + last;
    assert e.events[1..] == last;
  }

  /** Calling createIndex again after it ended normally sends no create request and changes nothing. */
  lemma CreateIndexIdempotent(st: Store, fails: Request -> bool, indexName: string, dimension: nat, dimension2: nat)
    requires !fails(ListIndexesRequest)
    requires CreateIndexEffect(st, fails, indexName, dimension).outcome == Done
    ensures var first := CreateIndexEffect(st, fails, indexName, dimension);
            var second := CreateIndexEffect(first.store, fails, indexName, dimension2);
            && second == Effect(first.store, [Sent(ListIndexesRequest)], Done)
            && CreateRequests(first.events + second.events) <= 1
  {
    var first := CreateIndexEffect(st, fails, indexName, dimension);
    CreateRequestsAppend(first.events, [Sent(ListIndexesRequest)]);
    assert [Sent(ListIndexesRequest)][1..] == [];
    if indexName !in st.indexes {
      CreateIndexCreatesOnce(st, fails, indexName, dimension);
    } else {
      assert first.events == [Sent(ListIndexesRequest)];
      assert first.events[1..] == [];
    }
  }

  lemma {:induction false} CreateRequestsAppend(a: seq<Event>, b: seq<Event>)
    ensures CreateRequests(a + b) == CreateRequests(a) + CreateRequests(b)
    decreases |a|
  {
    if a == [] {
      assert a + b == b;
    } else {
      assert (a + b)[1..] == a[1..] + b;
      CreateRequestsAppend(a[1..], b);
    }
  }
}
