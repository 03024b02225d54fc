/**
 * The indexing script: `createIndex`, `updateIndex` and `main`. Each operation works
 * against a `PineconeClient` and is proved to leave the service and the trace exactly as
 * the reference definitions in `Indexing` say.
 */
module Create {
  import opened Strings
  import opened Batching
  import opened Documents
  import opened Remote
  import opened Indexing
  import opened Configuration

  /** `vectorDimensions` in `main`: the size of the embeddings the index is created for. */
  const VectorDimensions: nat := 1536

  /**
   * Lists the indexes; if `indexName` is not among them, creates it with the cosine metric
   * and waits `CREATE_INDEX_TIMEOUT`. A rejected request ends the operation with its error.
   */
  method CreateIndex(client: PineconeClient, indexName: string, vectorDimension: nat) returns (r: Outcome)
    modifies client
    ensures var e := CreateIndexEffect(old(client.store), client.fails, indexName, vectorDimension);
            client.store == e.store && client.trace == old(client.trace) + e.events && r == e.outcome
  {
    var ok, existingIndexes := client.ListIndexes();
    if !ok {
      return Failed(ListIndexesRequest);
    }
    if indexName in existingIndexes {
      return Done;
    }
    ok := client.CreateIndex(indexName, vectorDimension, Metric);
    if !ok {
      return Failed(CreateIndexRequest(indexName, vectorDimension, Metric));
    }
    client.Wait(CreateIndexTimeout);
    r := Done;
  }

  /** Solver hint: one more batch adds its upsert at the end. */
  lemma UpsertsOfSnoc(indexName: string, bs: seq<seq<VectorItem>>, b: seq<VectorItem>)
    ensures UpsertsOf(indexName, bs + [b]) == UpsertsOf(indexName, bs) + [UpsertRequest(indexName, b)]
  {
  }

  /** Solver hint: the upserts of concatenated batch lists concatenate. */
  lemma UpsertsOfAppend(indexName: string, bs: seq<seq<VectorItem>>, cs: seq<seq<VectorItem>>)
    ensures UpsertsOf(indexName, bs + cs) == UpsertsOf(indexName, bs) + UpsertsOf(indexName, cs)
  {
  }

  /** The upserts of the first j documents followed by those of document j. */
  lemma PlannedUpsertsNext(indexName: string, docs: seq<Document>, j: nat, splitter: string -> seq<Chunk>, embedder: seq<string> -> seq<Embedding>)
    requires EmbedsEach(embedder) && j < |docs|
    ensures PlannedUpserts(indexName, docs[..j + 1], splitter, embedder)
         == PlannedUpserts(indexName, docs[..j], splitter, embedder) + DocumentUpserts(indexName, docs[j], splitter, embedder)
  {
    assert docs[..j + 1][..j] == docs[..j];
  }

  /**
   * The upserts of a document start with those of its first e records, when e ends a batch.
   */
  lemma DocumentUpsertsPrefix(indexName: string, recs: seq<VectorItem>, e: nat) returns (after: seq<Request>)
    requires e <= |recs| && (e == |recs| || e % BatchSize == 0)
    ensures UpsertsOf(indexName, Batches(recs)) == UpsertsOf(indexName, Batches(recs[..e])) + after
  {
    if e == |recs| {
      assert recs[..e] == recs;
      after := [];
    } else {
      BatchesSplit(recs, e);
      UpsertsOfAppend(indexName, Batches(recs[..e]), Batches(recs[e..]));
      after := UpsertsOf(indexName, Batches(recs[e..]));
    }
  }

  /** Flushing the records from d up to e, after a batch boundary d, adds one upsert. */
  lemma FlushAddsOneUpsert(indexName: string, recs: seq<VectorItem>, d: nat, e: nat)
    requires d % BatchSize == 0 && d < e <= d + BatchSize && e <= |recs|
    ensures UpsertsOf(indexName, Batches(recs[..e])) == UpsertsOf(indexName, Batches(recs[..d])) + [UpsertRequest(indexName, recs[d..e])]
    ensures e == d + BatchSize ==> e % BatchSize == 0
  {
    assert recs[..e][..d] == recs[..d] && recs[..e][d..] == recs[d..e];
    BatchesSnoc(recs[..e], d);
    UpsertsOfSnoc(indexName, Batches(recs[..d]), recs[d..e]);
    if e == d + BatchSize {
      NextBoundary(d);
    }
  }

  /** A rejected flush ends the document's run: what was sent before it stays applied, and its error is thrown. */
  lemma FlushRejected(st: Store, fails: Request -> bool, indexName: string, recs: seq<VectorItem>, sent: seq<Request>, req: Request, e: nat)
    requires e <= |recs| && (e == |recs| || e % BatchSize == 0)
    requires sent + [req] == UpsertsOf(indexName, Batches(recs[..e]))
    requires NoneFail(fails, sent) && fails(req)
    ensures Run(st, fails, UpsertsOf(indexName, Batches(recs))) == Effect(ApplyAll(st, sent), Sends(sent) + [Sent(req)], Failed(req))
  {
    var after := DocumentUpsertsPrefix(indexName, recs, e);
    RunStopsAtFirstFailure(st, fails, sent, req, after);
    assert Sends(sent + [req]) == Sends(sent) + [Sent(req)];
  }

  /** An accepted flush extends the run by one sent and applied upsert. */
  lemma FlushAccepted(st: Store, fails: Request -> bool, sent: seq<Request>, req: Request)
    requires NoneFail(fails, sent) && !fails(req)
    ensures NoneFail(fails, sent + [req])
    ensures ApplyAll(st, sent + [req]) == Apply(ApplyAll(st, sent), req)
    ensures Sends(sent + [req]) == Sends(sent) + [Sent(req)]
  {
    ApplyAllSnoc(st, sent, req);
  }

  /**
   * What the chunk loop knows before chunk i: the records from d on wait in `batch`, and
   * the upserts of the records before d, one per batch, all went through.
   */
  ghost predicate ChunkLoop(recs: seq<VectorItem>, indexName: string, fails: Request -> bool, st0: Store, trace0: seq<Event>,
                            store: Store, trace: seq<Event>, batch: seq<VectorItem>, sent: seq<Request>, d: nat, i: nat)
  {
    && d <= i <= |recs| && batch == recs[d..i] && |batch| < BatchSize
    && (d < |recs| ==> d % BatchSize == 0)
    && (i == |recs| ==> batch == [])
    && sent == UpsertsOf(indexName, Batches(recs[..d]))
    && NoneFail(fails, sent) && store == ApplyAll(st0, sent) && trace == trace0 + Sends(sent)
  }

  /** Pushing record i without flushing keeps the loop's knowledge. */
  lemma ChunkPushed(recs: seq<VectorItem>, indexName: string, fails: Request -> bool, st0: Store, trace0: seq<Event>,
                    store: Store, trace: seq<Event>, batch: seq<VectorItem>, sent: seq<Request>, d: nat, i: nat)
    requires ChunkLoop(recs, indexName, fails, st0, trace0, store, trace, batch, sent, d, i) && i < |recs|
    requires |batch + [recs[i]]| != BatchSize && i != |recs| - 1
    ensures ChunkLoop(recs, indexName, fails, st0, trace0, store, trace, batch + [recs[i]], sent, d, i + 1)
  {
    assert recs[d..i + 1] == recs[d..i] + [recs[i]];
  }

  /** Pushing record i and upserting the batch, accepted, starts a new batch after i. */
  lemma ChunkFlushed(recs: seq<VectorItem>, indexName: string, fails: Request -> bool, st0: Store, trace0: seq<Event>,
                     store: Store, trace: seq<Event>, batch: seq<VectorItem>, sent: seq<Request>, d: nat, i: nat)
    requires ChunkLoop(recs, indexName, fails, st0, trace0, store, trace, batch, sent, d, i) && i < |recs|
    requires |batch + [recs[i]]| == BatchSize || i == |recs| - 1
    requires !fails(UpsertRequest(indexName, batch + [recs[i]]))
    ensures var req := UpsertRequest(indexName, batch + [recs[i]]);
            ChunkLoop(recs, indexName, fails, st0, trace0, Apply(store, req), trace + [Sent(req)], [], sent + [req], i + 1, i + 1)
  {
    var req := UpsertRequest(indexName, batch + [recs[i]]);
    assert recs[d..i + 1] == recs[d..i] + [recs[i]];
    FlushAddsOneUpsert(indexName, recs, d, i + 1);
    FlushAccepted(st0, fails, sent, req);
    ConcatAssociative(trace0, Sends(sent), [Sent(req)]);
  }

  /** Pushing record i and upserting the batch, rejected, ends the document's run with that upsert's error. */
  lemma ChunkRejected(recs: seq<VectorItem>, indexName: string, fails: Request -> bool, st0: Store, trace0: seq<Event>,
                      store: Store, trace: seq<Event>, batch: seq<VectorItem>, sent: seq<Request>, d: nat, i: nat)
    requires ChunkLoop(recs, indexName, fails, st0, trace0, store, trace, batch, sent, d, i) && i < |recs|
    requires |batch + [recs[i]]| == BatchSize || i == |recs| - 1
    requires fails(UpsertRequest(indexName, batch + [recs[i]]))
    ensures var req := UpsertRequest(indexName, batch + [recs[i]]);
            var e := Run(st0, fails, UpsertsOf(indexName, Batches(recs)));
            store == e.store && trace + [Sent(req)] == trace0 + e.events && e.outcome == Failed(req)
  {
    var req := UpsertRequest(indexName, batch + [recs[i]]);
    assert recs[d..i + 1] == recs[d..i] + [recs[i]];
    FlushAddsOneUpsert(indexName, recs, d, i + 1);
    FlushRejected(st0, fails, indexName, recs, sent, req, i + 1);
    ConcatAssociative(trace0, Sends(sent), [Sent(req)]);
  }

  /** After the last chunk every batch was upserted: the document's run is done. */
  lemma ChunksDone(recs: seq<VectorItem>, indexName: string, fails: Request -> bool, st0: Store, trace0: seq<Event>,
                   store: Store, trace: seq<Event>, batch: seq<VectorItem>, sent: seq<Request>, d: nat)
    requires ChunkLoop(recs, indexName, fails, st0, trace0, store, trace, batch, sent, d, |recs|)
    ensures var e := Run(st0, fails, UpsertsOf(indexName, Batches(recs)));
            store == e.store && trace == trace0 + e.events && e.outcome == Done
  {
    assert recs[..d] == recs;
    RunAccepted(st0, fails, sent);
  }

  /**
   * The loop over one document's chunks: push one record per chunk into `batch`, upserting
   * the batch when it holds `BatchSize` records or the last chunk has been pushed. The run
   * is the upserts of the records cut into batches, issued in order; the first rejected
   * upsert ends it with its error.
   */
  method UpsertChunks(client: PineconeClient, indexName: string, document: Document, chunks: seq<Chunk>, embeddings: seq<Embedding>)
    returns (r: Outcome)
    requires |embeddings| == |chunks|
    modifies client
    ensures var e := Run(old(client.store), client.fails, UpsertsOf(indexName, Batches(Records(document, chunks, embeddings))));
            client.store == e.store && client.trace == old(client.trace) + e.events && r == e.outcome
  {
    ghost var st0 := client.store;
    ghost var trace0 := client.trace;
    ghost var recs := Records(document, chunks, embeddings);
    ghost var sent: seq<Request> := [];
    ghost var d: nat := 0;
    var txtPath := Source(document);
    var batch: seq<VectorItem> := [];
    for i := 0 to |chunks|
      invariant ChunkLoop(recs, indexName, client.fails, st0, trace0, client.store, client.trace, batch, sent, d, i)
    {
      var vector := VectorItem(ChunkId(txtPath, i), embeddings[i], RecordMetadata(document, chunks[i]));
      assert vector == recs[i];
      ghost var pushed := batch;
      ghost var store := client.store;
      ghost var trace := client.trace;
      batch := batch + [vector];
      if |batch| == BatchSize || i == |chunks| - 1 {
        var ok := client.Upsert(indexName, batch);
        if !ok {
          ChunkRejected(recs, indexName, client.fails, st0, trace0, store, trace, pushed, sent, d, i);
          return Failed(UpsertRequest(indexName, batch));
        }
        ChunkFlushed(recs, indexName, client.fails, st0, trace0, store, trace, pushed, sent, d, i);
        sent := sent + [UpsertRequest(indexName, batch)];
        batch := [];
        d := i + 1;
      } else {
        ChunkPushed(recs, indexName, client.fails, st0, trace0, store, trace, pushed, sent, d, i);
      }
    }
    ChunksDone(recs, indexName, client.fails, st0, trace0, client.store, client.trace, batch, sent, d);
    r := Done;
  }

  /**
   * The body of the loop over documents: split the document into chunks, embed the chunk
   * texts with newlines replaced by spaces, then upsert the chunks' records in batches.
   */
  method IndexDocument(client: PineconeClient, indexName: string, document: Document,
                       splitter: string -> seq<Chunk>, embedder: seq<string> -> seq<Embedding>)
    returns (r: Outcome)
    requires EmbedsEach(embedder)
    modifies client
    ensures var e := Run(old(client.store), client.fails, DocumentUpserts(indexName, document, splitter, embedder));
            client.store == e.store && client.trace == old(client.trace) + e.events && r == e.outcome
  {
    var chunks := splitter(document.pageContent);
    var texts := EmbeddingInputs(chunks);
    var embeddings := embedder(texts);
    r := UpsertChunks(client, indexName, document, chunks, embeddings);
  }

  /** A document whose upserts all went through extends the run by them. */
  lemma DocumentAccepted(st: Store, fails: Request -> bool, sent: seq<Request>, mine: seq<Request>)
    requires NoneFail(fails, sent) && Run(ApplyAll(st, sent), fails, mine).outcome == Done
    ensures NoneFail(fails, sent + mine)
    ensures ApplyAll(st, sent + mine) == Run(ApplyAll(st, sent), fails, mine).store
    ensures Sends(sent + mine) == Sends(sent) + Run(ApplyAll(st, sent), fails, mine).events
  {
    RunDone(ApplyAll(st, sent), fails, mine);
    ApplyAllAppend(st, sent, mine);
    SendsAppend(sent, mine);
    NoneFailAppend(fails, sent, mine);
  }

  /** The upserts of a run are those of the documents before j, of document j, and of those after it. */
  lemma PlannedUpsertsAround(indexName: string, docs: seq<Document>, j: nat,
                             splitter: string -> seq<Chunk>, embedder: seq<string> -> seq<Embedding>)
    requires EmbedsEach(embedder) && j < |docs|
    ensures PlannedUpserts(indexName, docs, splitter, embedder)
         == PlannedUpserts(indexName, docs[..j], splitter, embedder)
            + (DocumentUpserts(indexName, docs[j], splitter, embedder) + PlannedUpserts(indexName, docs[j + 1..], splitter, embedder))
  {
    assert docs == docs[..j + 1] + docs[j + 1..];
    PlannedUpsertsAppend(indexName, docs[..j + 1], docs[j + 1..], splitter, embedder);
    PlannedUpsertsNext(indexName, docs, j, splitter, embedder);
    ConcatAssociative(PlannedUpserts(indexName, docs[..j], splitter, embedder),
                      DocumentUpserts(indexName, docs[j], splitter, embedder),
                      PlannedUpserts(indexName, docs[j + 1..], splitter, embedder));
  }

  /** A document whose run threw ends the whole update with that run's state and error. */
  lemma DocumentRejected(st: Store, fails: Request -> bool, indexName: string, docs: seq<Document>, j: nat,
                         splitter: string -> seq<Chunk>, embedder: seq<string> -> seq<Embedding>)
    requires EmbedsEach(embedder) && j < |docs|
    requires var sent := PlannedUpserts(indexName, docs[..j], splitter, embedder);
             NoneFail(fails, sent) &&
             Run(ApplyAll(st, sent), fails, DocumentUpserts(indexName, docs[j], splitter, embedder)).outcome.Failed?
    ensures var sent := PlannedUpserts(indexName, docs[..j], splitter, embedder);
            var e := Run(ApplyAll(st, sent), fails, DocumentUpserts(indexName, docs[j], splitter, embedder));
            Run(st, fails, PlannedUpserts(indexName, docs, splitter, embedder)) == Effect(e.store, Sends(sent) + e.events, e.outcome)
  {
    PlannedUpsertsAround(indexName, docs, j, splitter, embedder);
    RunThrownWithin(st, fails, PlannedUpserts(indexName, docs[..j], splitter, embedder),
                    DocumentUpserts(indexName, docs[j], splitter, embedder),
                    PlannedUpserts(indexName, docs[j + 1..], splitter, embedder));
  }

  /**
   * `updateIndex`: index the documents one after another. The run is the upserts of
   * `PlannedUpserts` issued in order; the first rejected upsert ends it with its error.
   */
  method UpdateIndex(client: PineconeClient, indexName: string, docs: seq<Document>,
                     splitter: string -> seq<Chunk>, embedder: seq<string> -> seq<Embedding>)
    returns (r: Outcome)
    requires EmbedsEach(embedder)
    modifies client
    ensures var e := Run(old(client.store), client.fails, PlannedUpserts(indexName, docs, splitter, embedder));
            client.store == e.store && client.trace == old(client.trace) + e.events && r == e.outcome
  {
    ghost var st0 := client.store;
    ghost var trace0 := client.trace;
    ghost var sent: seq<Request> := [];
    for j := 0 to |docs|
      invariant sent == PlannedUpserts(indexName, docs[..j], splitter, embedder)
      invariant NoneFail(client.fails, sent)
      invariant client.store == ApplyAll(st0, sent)
      invariant client.trace == trace0 + Sends(sent)
    {
      ghost var mine := DocumentUpserts(indexName, docs[j], splitter, embedder);
      var outcome := IndexDocument(client, indexName, docs[j], splitter, embedder);
      if outcome.Failed? {
        assert client.store == Run(st0, client.fails, PlannedUpserts(indexName, docs, splitter, embedder)).store
            && client.trace == trace0 + Run(st0, client.fails, PlannedUpserts(indexName, docs, splitter, embedder)).events
            && outcome == Run(st0, client.fails, PlannedUpserts(indexName, docs, splitter, embedder)).outcome by {
          DocumentRejected(st0, client.fails, indexName, docs, j, splitter, embedder);
          ConcatAssociative(trace0, Sends(sent), Run(ApplyAll(st0, sent), client.fails, mine).events);
        }
        return outcome;
      }
      assert NoneFail(client.fails, sent + mine) && client.store == ApplyAll(st0, sent + mine)
          && client.trace == trace0 + Sends(sent + mine) by {
        DocumentAccepted(st0, client.fails, sent, mine);
        ConcatAssociative(trace0, Sends(sent), Run(ApplyAll(st0, sent), client.fails, mine).events);
      }
      PlannedUpsertsNext(indexName, docs, j, splitter, embedder);
      sent := sent + mine;
    }
    assert client.store == Run(st0, client.fails, PlannedUpserts(indexName, docs, splitter, embedder)).store
        && client.trace == trace0 + Run(st0, client.fails, PlannedUpserts(indexName, docs, splitter, embedder)).events
        && Run(st0, client.fails, PlannedUpserts(indexName, docs, splitter, embedder)).outcome == Done by {
      assert docs[..|docs|] == docs;
      RunAccepted(st0, client.fails, sent);
    }
    r := Done;
  }

  /**
   * `main`: initialise the client with the configured key and environment, then create the
   * configured index with 1536 dimensions and update it with the loaded documents. An error
   * from `createIndex` or `updateIndex` is caught and logged; only a rejected initialisation
   * escapes, as the rejection of `main`'s promise.
   */
  function MainEffect(st: Store, fails: Request -> bool, cfg: Config, docs: seq<Document>,
                      splitter: string -> seq<Chunk>, embedder: seq<string> -> seq<Embedding>): (e: Effect)
    requires EmbedsEach(embedder)
    ensures e.outcome.Failed? <==> fails(InitRequest(cfg.pineconeApiKey, cfg.pineconeEnvironment))
    ensures e.outcome.Failed? ==> e.outcome.request == InitRequest(cfg.pineconeApiKey, cfg.pineconeEnvironment)
    ensures |e.events| >= 1 && e.events[0] == Sent(InitRequest(cfg.pineconeApiKey, cfg.pineconeEnvironment))
  {
    var init := InitRequest(cfg.pineconeApiKey, cfg.pineconeEnvironment);
    if fails(init) then Effect(st, [Sent(init)], Failed(init))
    else
      var created := CreateIndexEffect(st, fails, cfg.pineconeIndex, VectorDimensions);
      if created.outcome.Failed? then Effect(created.store, [Sent(init)] + created.events, Done)
      else
        var updated := Run(created.store, fails, PlannedUpserts(cfg.pineconeIndex, docs, splitter, embedder));
        Effect(updated.store, [Sent(init)] + created.events + updated.events, Done)
  }

  method RunMain(client: PineconeClient, cfg: Config, docs: seq<Document>,
                 splitter: string -> seq<Chunk>, embedder: seq<string> -> seq<Embedding>)
    returns (r: Outcome)
    requires EmbedsEach(embedder)
    modifies client
    ensures var e := MainEffect(old(client.store), client.fails, cfg, docs, splitter, embedder);
            client.store == e.store && client.trace == old(client.trace) + e.events && r == e.outcome
  {
    ghost var st0 := client.store;
    ghost var trace0 := client.trace;
    var init := InitRequest(cfg.pineconeApiKey, cfg.pineconeEnvironment);
    var ok := client.Init(cfg.pineconeApiKey, cfg.pineconeEnvironment);
    if !ok {
      return Failed(init);
    }
    var indexName := cfg.pineconeIndex;
    ghost var c := CreateIndexEffect(st0, client.fails, indexName, VectorDimensions);
    var created := CreateIndex(client, indexName, VectorDimensions);
    ConcatAssociative(trace0, [Sent(init)], c.events);
    if created.Done? {
      ghost var u := Run(c.store, client.fails, PlannedUpserts(indexName, docs, splitter, embedder));
      var updated := UpdateIndex(client, indexName, docs, splitter, embedder);
      ConcatAssociative(trace0, [Sent(init)] + c.events, u.events);
    }
    r := Done;
  }

  /**
   * With every request accepted and the index missing, `main` initialises, lists, creates the
   * index with 1536 dimensions and the cosine metric, waits 60000 ms, and only then upserts.
   */
  lemma MainOrderForNewIndex(st: Store, fails: Request -> bool, cfg: Config, docs: seq<Document>,
                             splitter: string -> seq<Chunk>, embedder: seq<string> -> seq<Embedding>)
    requires EmbedsEach(embedder)
    requires cfg.pineconeIndex !in st.indexes
    requires !fails(InitRequest(cfg.pineconeApiKey, cfg.pineconeEnvironment)) && !fails(ListIndexesRequest)
    requires !fails(CreateIndexRequest(cfg.pineconeIndex, 1536, "cosine"))
    requires NoneFail(fails, PlannedUpserts(cfg.pineconeIndex, docs, splitter, embedder))
    ensures var e := MainEffect(st, fails, cfg, docs, splitter, embedder);
            && e.outcome == Done
            && e.events == [Sent(InitRequest(cfg.pineconeApiKey, cfg.pineconeEnvironment)),
                            Sent(ListIndexesRequest),
                            Sent(CreateIndexRequest(cfg.pineconeIndex, 1536, "cosine")),
                            Waited(60000)]
                           + Sends(PlannedUpserts(cfg.pineconeIndex, docs, splitter, embedder))
  {
    var created := CreateIndexEffect(st, fails, cfg.pineconeIndex, VectorDimensions);
    RunAccepted(created.store, fails, PlannedUpserts(cfg.pineconeIndex, docs, splitter, embedder));
  }

  /** With the index already present, `main` goes from listing straight to the upserts. */
  lemma MainOrderForExistingIndex(st: Store, fails: Request -> bool, cfg: Config, docs: seq<Document>,
                                  splitter: string -> seq<Chunk>, embedder: seq<string> -> seq<Embedding>)
    requires EmbedsEach(embedder)
    requires cfg.pineconeIndex in st.indexes
    requires !fails(InitRequest(cfg.pineconeApiKey, cfg.pineconeEnvironment)) && !fails(ListIndexesRequest)
    requires NoneFail(fails, PlannedUpserts(cfg.pineconeIndex, docs, splitter, embedder))
    ensures var e := MainEffect(st, fails, cfg, docs, splitter, embedder);
            && e.outcome == Done
            && e.events == [Sent(InitRequest(cfg.pineconeApiKey, cfg.pineconeEnvironment)), Sent(ListIndexesRequest)]
                           + Sends(PlannedUpserts(cfg.pineconeIndex, docs, splitter, embedder))
            && e.store == ApplyAll(st, PlannedUpserts(cfg.pineconeIndex, docs, splitter, embedder))
  {
    RunAccepted(st, fails, PlannedUpserts(cfg.pineconeIndex, docs, splitter, embedder));
  }

  /**
   * A failed `createIndex` is swallowed: `main` ends normally, sends no upsert, and the
   * store is left as index creation left it.
   */
  lemma MainSkipsUpdateAfterCreateFailure(st: Store, fails: Request -> bool, cfg: Config, docs: seq<Document>,
                                          splitter: string -> seq<Chunk>, embedder: seq<string> -> seq<Embedding>)
    requires EmbedsEach(embedder)
    requires !fails(InitRequest(cfg.pineconeApiKey, cfg.pineconeEnvironment))
    requires CreateIndexEffect(st, fails, cfg.pineconeIndex, VectorDimensions).outcome.Failed?
    ensures var e := MainEffect(st, fails, cfg, docs, splitter, embedder);
            && e.outcome == Done
            && e.store == st
            && forall k :: 0 <= k < |e.events| ==> !(e.events[k].Sent? && e.events[k].request.UpsertRequest?)
  {
  }
}
