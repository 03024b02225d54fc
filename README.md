# pinecone-docs, modelled in Dafny

pinecone-docs answers questions about a directory of Markdown documents. An indexing script
(`src/create.ts`) cuts every document into chunks, embeds each chunk, and upserts the chunks as
records into a Pinecone index, creating the index first if it is missing. The query command
answers from Pinecone (`src/pinecone.ts`): it embeds the question, retrieves the nearest
records, and asks a "stuff documents" chain to answer from their text. `src/faiss.ts` holds an
alternative backend over an in-memory Faiss store that no command uses; it answers the same
way. Both programs read a validated configuration from the environment
(`src/config.ts`).

The model covers:

- the indexing loop, with its record ids, newline handling and batches of 100;
- the idempotent index creation, with its fixed 60-second wait;
- the order of calls in the script's `main`, and which errors it swallows;
- how both query methods assemble their answer;
- the initialised-state guard of `FaissDB`;
- the configuration validator.

Remote services are parameters:

- The Pinecone service is a `Store` of index names and records per index. The client holds
  it together with a trace of the requests sent and the waits taken.
- A function `fails` says which requests the service rejects. A rejected request makes the
  awaited call throw.
- Similarity search, the text splitter, the embedder and the language model's answer are
  functions passed in.

Modules:

- `Strings`, `Batching` and `Documents` are support modules.
- `Remote` holds the service and `PineconeClient`.
- `Indexing` holds the reference definitions of what a run sends and leaves behind.
- `Create` holds the script's operations, as methods on the client.
- `Retrieval` holds the answer assembly shared by both backends.
- `PineconeDb`, `Faiss` and `Configuration` model the remaining source files.

Every method that changes the client is proved to produce exactly the store, trace and
outcome of its reference definition. The properties are proved about those definitions:
batching, ids, idempotence and call order.

Behaviour of the code worth knowing:

- A rejected upsert throws the client's error and ends the whole run. The error carries no
  offset range, and no document is skipped.
- Two kinds of error are swallowed: `FaissDB.init` swallows its errors, and `main` swallows
  errors from `createIndex` and `updateIndex`. Of the modelled steps, only a rejected client
  initialisation escapes.
- `PINECONE_ENVIRONMENT` is any non-empty string; it is not an enumeration.
- The stored `pageContent` is the chunk text unchanged. Only the embedding input has its
  newlines replaced.
- The backend names are `pinecone`, `faiss` and `chroma`.

Record ids `${source}-${i}` are unique within a document. They are also unique across
documents with different rendered sources (`Source`; a document without a source renders as
"undefined"): the ordinal is all digits, so an id can be read back as its source and its
ordinal (`ChunkIdInjective`).

## Model

| member | source | states |
|---|---|---|
| Strings.NatToString | src/pinecone.ts:79 | the ordinal in an id is a non-empty string of decimal digits with no leading zero unless it is 0 |
| Strings.ParseNatToString | src/pinecone.ts:79 | the decimal rendering of an ordinal reads back as that ordinal |
| Strings.NatToStringInjective | src/pinecone.ts:79 | different ordinals render differently |
| Strings.ReplaceNewlines | src/pinecone.ts:70 | every `\n` becomes a space, every other character is kept in place, the length is unchanged and no newline remains |
| Strings.ReplaceNewlinesIdentity | src/pinecone.ts:70 | text without newlines is embedded unchanged |
| Strings.Join | src/pinecone.ts:121 | joining no parts gives "", and otherwise the result starts with the first part |
| Strings.JoinLength | src/pinecone.ts:119-121 | joined text is the parts plus one separator between each pair of neighbours |
| Strings.JoinSnoc | src/pinecone.ts:119-121 | joining one more part appends the separator and that part |
| Strings.JoinSplit | src/pinecone.ts:119-121 | splitting text on a character and joining it back with that character gives the text |
| Strings.SplitJoin | src/pinecone.ts:119-121 | parts free of the separator are recovered, one for one and in order, by splitting their join |
| Batching.Batches | src/pinecone.ts:74-99 | there are no batches exactly when there are no records |
| Batching.BatchesCount | src/pinecone.ts:59-99 | n records make ceil(n/100) batches |
| Batching.BatchesSizes | src/pinecone.ts:74-99 | every batch holds 1 to 100 records; all but the last hold exactly 100 |
| Batching.BatchesFlatten | src/pinecone.ts:74-99 | the batches, concatenated, are the records in order: none dropped, duplicated or reordered |
| Batching.BatchesSplit | src/pinecone.ts:89-98 | cutting the records at a multiple of 100 cuts the batches there, so a flush at 100 records starts a fresh batch |
| Batching.BatchesAt | src/pinecone.ts:89-98 | batch k starts at record 100·k, holds 100 records or the rest when fewer remain, and holds them in order |
| Batching.BatchesSnoc | src/pinecone.ts:91 | a final flush of fewer than 100 records, after the last chunk, is the last batch |
| Remote.ItemsById | src/pinecone.ts:92-96 | an upsert writes exactly the ids of its records, each id mapped to one of its records with that id |
| Remote.ApplyAllSnoc | src/pinecone.ts:61-101 | the effect of one more accepted request is that request's effect on the state so far |
| Remote.ApplyAllAppend | src/pinecone.ts:61-101 | the effect of two runs of accepted requests is the second applied after the first |
| Remote.RunAccepted | src/pinecone.ts:61-101 | when the service accepts every request, all are sent in order, all take effect, and the run ends normally |
| Remote.RunStopsAtFirstFailure | src/pinecone.ts:92-96 | the first rejected request is sent, nothing after it is, only the requests before it take effect, and its error is thrown |
| Remote.RunDone | src/pinecone.ts:61-101 | a run that ends normally had every request accepted and applied |
| Remote.RunAppendAccepted | src/pinecone.ts:61-101 | after accepted requests the run continues as a run of the rest from the state they left |
| Remote.RunFailedIgnoresRest | src/pinecone.ts:61-101 | once a run has thrown, later requests make no difference |
| Remote.RunThrownWithin | src/pinecone.ts:61-101 | a document whose upserts throw ends the whole update with that document's state and error |
| Remote.ApplyAllUpserts | src/pinecone.ts:92-96 | upserts into one index overwrite that index's records by id, later writes winning, and change nothing else |
| Remote.UpsertsIdempotent | src/pinecone.ts:92-96 | replaying the same upserts leaves the store as one replay left it |
| Remote.WrittenKeys | src/pinecone.ts:92-96 | upserts that carry the same ids, batch by batch, write the same set of ids |
| Remote.SameIdsKeepKeys | src/pinecone.ts:92-96 | replaying upserts whose batches carry the ids of upserts already applied adds no id to the index |
| Remote.PineconeClient.constructor | src/pinecone.ts:19 | a new client has the given service and an empty trace |
| Remote.PineconeClient.Send | src/pinecone.ts:92-96 | a request is recorded in the trace and changes the service only when it is accepted |
| Remote.PineconeClient.Init | src/create.ts:112-115 | initialisation sends one request with the key and environment and changes no index |
| Remote.PineconeClient.ListIndexes | src/pinecone.ts:28 | listing changes nothing and, when accepted, returns the service's index names |
| Remote.PineconeClient.CreateIndex | src/pinecone.ts:37-43 | one create request with name, dimension and metric, which adds the name when accepted |
| Remote.PineconeClient.Upsert | src/pinecone.ts:92-96 | one upsert request into the named index, which writes its records when accepted |
| Remote.PineconeClient.Query | src/pinecone.ts:110-116 | one query request; it changes nothing and, when accepted, returns the search over that index's records |
| Remote.PineconeClient.Wait | src/pinecone.ts:47 | a fixed delay is recorded on the timeline and changes nothing in the service |
| Indexing.Source | src/pinecone.ts:63 | the id prefix is the document's `metadata.source`, or "undefined" when it has none |
| Indexing.ChunkId | src/pinecone.ts:79 | an id is the source, a dash, and at least one more character |
| Indexing.LocJson | src/pinecone.ts:83 | the stored location is the text of a JSON object, between braces |
| Indexing.EmbeddingInputs | src/pinecone.ts:70 | one embedding input per chunk, as long as the chunk's text and free of newlines |
| Indexing.RecordMetadata | src/pinecone.ts:81-86 | the metadata holds exactly `loc`, `pageContent` and, when the document has a source, `txtPath`; `pageContent` is the chunk text unchanged, `loc` its JSON location and `txtPath` the source |
| Indexing.Records | src/pinecone.ts:76-88 | one record per chunk, in order; record i has id `source-i`, the embedder's vector i and chunk i's metadata |
| Indexing.ChunkIdParses | src/pinecone.ts:79 | an id is the source, a dash, then digits that read back as the ordinal |
| Indexing.ChunkIdsDistinct | src/pinecone.ts:76-79 | within a document, different ordinals give different ids |
| Indexing.ChunkIdInjective | src/pinecone.ts:63-79 | equal ids have equal sources and equal ordinals |
| Indexing.DocumentRecordsAt | src/pinecone.ts:70-86 | chunk i becomes the record with id `source-i`, the embedder's vector i, whose input is the chunk text with newlines replaced, and metadata with the unmodified text, the JSON location and the source as `txtPath` |
| Indexing.RecordIdsDistinct | src/pinecone.ts:76-79 | the records of one document have pairwise distinct ids |
| Indexing.RecordIdsUniqueAcrossDocuments | src/pinecone.ts:63-79 | records of documents with different rendered sources (`Source`) never share an id |
| Indexing.DocumentUpserts | src/pinecone.ts:74-99 | a document's upserts all go to the named index, ceil(n/100) of them for n chunks |
| Indexing.PlannedUpserts | src/pinecone.ts:61-101 | every upsert of an update goes to the named index |
| Indexing.DocumentUpsertsBatching | src/pinecone.ts:59-99 | a document with n chunks gives ceil(n/100) upserts into the named index, each of 1 to 100 records, all but the last full, none for n = 0, and their payloads concatenate to the document's records in chunk order |
| Indexing.PlannedUpsertsAppend | src/pinecone.ts:61-101 | the upserts of two runs of documents are the first's followed by the second's |
| Indexing.PlannedUpsertsKeepDocumentsApart | src/pinecone.ts:61-99 | every upsert goes to the named index, and the records of each upsert all come from one document |
| Indexing.ReindexingIsIdempotent | src/pinecone.ts:79-96 | re-running an accepted update on the same documents sends the same requests and leaves the index unchanged |
| Indexing.DocumentUpsertsSameIds | src/pinecone.ts:74-99 | whatever vectors two embedders return, a document's upserts go to the same index with the same ids, batch by batch |
| Indexing.PlannedUpsertsSameIds | src/pinecone.ts:61-101 | the same holds for all upserts of an update |
| Indexing.ReindexingKeepsIds | src/pinecone.ts:79-96 | re-running an accepted update, with any embedder, sends as many upserts, ends normally and leaves the index with the same set of ids |
| Indexing.CreateIndexEffect | src/pinecone.ts:25-48 | creation always starts with one listing; it ends normally exactly when the listing is accepted and the index exists or its creation is accepted; a normal end leaves the name listed, and a thrown error leaves the store unchanged |
| Indexing.CreateIndexShortCircuits | src/pinecone.ts:28-35 | an existing index is listed only: no create request, no wait, nothing changed |
| Indexing.CreateIndexCreatesOnce | src/pinecone.ts:37-47 | a missing index gets exactly one create request with the name, dimension and cosine metric; exactly one 60000 ms wait follows it when it is accepted and none when it is rejected; the name is listed afterwards exactly when the outcome is normal |
| Indexing.CreateIndexIdempotent | src/pinecone.ts:25-48 | a second call after one that ended normally sends only the listing and changes nothing; at most one create request in all |
| Configuration.Input | src/config.ts:30-36 | a string key reads as its value, or '' when it is missing; `DB_TYPE` reads as its value, or as missing |
| Configuration.Check | src/config.ts:22-28 | an error names its key; a value passes exactly when it is present, non-empty for a string key and one of the allowed names for `DB_TYPE`; a missing value is reported as required |
| Configuration.FirstError | src/config.ts:38-42 | a reported error is the error of one of the schema's keys |
| Configuration.DetailMessage | src/config.ts:41 | a message starts with its key in double quotes |
| Configuration.NewConfig | src/config.ts:21-49 | construction succeeds exactly when validation reports no error; a failure message starts with "Config validation error: " |
| Configuration.ParseDbType | src/config.ts:27 | a backend is recognised exactly when the value is one of the three names, and its name is that value |
| Configuration.FirstErrorNone | src/config.ts:38-42 | validation passes exactly when every key passes its check |
| Configuration.FirstErrorIsFirst | src/config.ts:38-42 | the error reported is that of the first key, in schema order, that fails |
| Configuration.NewConfigAccepts | src/config.ts:21-42 | construction succeeds exactly when the four string variables are set and non-empty and DB_TYPE is set to pinecone, faiss or chroma |
| Configuration.NewConfigCopiesFields | src/config.ts:44-48 | on success every field holds the environment's value for its key |
| Configuration.NewConfigReportsFirstError | src/config.ts:40-42 | on failure the message is "Config validation error: " followed by the first failing key's message only |
| Configuration.MissingAndInvalidValues | src/config.ts:23-35 | a missing string variable is rejected as empty, a missing DB_TYPE as required, and any other DB_TYPE outside the three names as not one of them |
| Configuration.NotOneOfMessage | src/config.ts:27 | the message for a value outside the allowed ones quotes the key and lists the allowed values in order, comma-separated, between brackets |
| Retrieval.StuffDocumentsChain.Call | src/pinecone.ts:123-128 | one chain call is logged with its documents and question, and its text is returned |
| Retrieval.PageContents | src/faiss.ts:35 | one content per search result, in rank order: each result's `pageContent` |
| Retrieval.StuffedContext | src/pinecone.ts:118-124 | there is a context document exactly when some content was retrieved, and it has no metadata |
| Retrieval.StuffedContextRoundTrip | src/pinecone.ts:119-121 | when no passage contains a space, splitting the context on spaces gives the passages back in rank order |
| Retrieval.StuffedContextLength | src/pinecone.ts:119-121 | the context holds every passage and exactly one space between neighbours |
| Retrieval.Answer | src/pinecone.ts:118-131 | no contents means no chain call and no answer; otherwise exactly one chain call with the single joined document, and its text is the answer |
| Create.CreateIndex | src/create.ts:15-42 | the store, trace and outcome are exactly those of the idempotent creation above |
| Create.UpsertChunks | src/create.ts:72-98 | the push-and-flush loop sends exactly the document's records cut into batches of 100, in order, stopping at the first rejected upsert |
| Create.IndexDocument | src/create.ts:59-98 | one document is split, embedded with newlines replaced, and upserted as its planned batches |
| Create.UpdateIndex | src/create.ts:44-100 | the documents are indexed one after another; the run is the planned upserts of all documents, in order, stopping at the first rejected one |
| Create.MainEffect | src/create.ts:102-123 | main ends by throwing exactly when client initialisation is rejected; its first step is always that initialisation |
| Create.RunMain | src/create.ts:102-123 | the script's main leaves exactly the store, trace and outcome of its reference definition |
| Create.MainOrderForNewIndex | src/create.ts:108-119 | with the index missing and all accepted: init, list, create with 1536 dimensions and cosine, wait 60000 ms, then the upserts |
| Create.MainOrderForExistingIndex | src/create.ts:112-119 | with the index present and all accepted: init, list, then the upserts, which alone change the store |
| Create.MainSkipsUpdateAfterCreateFailure | src/create.ts:117-122 | a failed index creation is swallowed: main ends normally, sends no upsert and changes no record |
| PineconeDb.MatchContents | src/pinecone.ts:119-120 | one content per match, in rank order: content i is match i's `metadata.pageContent`, or "" (as `join` renders undefined) when that key is absent |
| PineconeDb.QueryContents | src/pinecone.ts:118-120 | a missing match list gives no contents; otherwise there is one content per match |
| PineconeDb.MatchOfRecordGivesChunkText | src/pinecone.ts:84 | a match carrying an indexed record's metadata yields that chunk's original text, newlines included |
| PineconeDb.PineconeDB.constructor | src/pinecone.ts:19 | the database owns a new client with an empty trace |
| PineconeDb.PineconeDB.Init | src/pinecone.ts:21-23 | one initialisation request with the key and environment; the indexes are unchanged |
| PineconeDb.PineconeDB.CreateIndex | src/pinecone.ts:25-48 | the same effect as the script's idempotent creation |
| PineconeDb.PineconeDB.UpdateIndex | src/pinecone.ts:50-102 | the same run of planned upserts as the script's update loop |
| PineconeDb.PineconeDB.Query | src/pinecone.ts:104-132 | one query for the 10 nearest records with metadata, changing no record; a rejected query throws; no matches means no chain call and an undefined answer; otherwise one chain call with the contents joined by spaces in rank order |
| Faiss.InitializedStore | src/faiss.ts:13-23 | a failed split or build leaves the previous store; a successful one installs the built store |
| Faiss.InitializedStays | src/faiss.ts:13-23 | once initialised, the database stays initialised |
| Faiss.FaissDB.constructor | src/faiss.ts:11 | a new database has no store |
| Faiss.FaissDB.Init | src/faiss.ts:13-23 | the store becomes the one built from the split documents, or stays as it was when either step fails |
| Faiss.FaissDB.Query | src/faiss.ts:25-46 | throws "FaissDB not initialized" with no chain call while there is no store; otherwise no results means no chain call and an undefined answer, and results mean one chain call with their contents joined by spaces in rank order |

## Left out

- Embedding vectors and similarity scores are floating point; they are opaque values here.
  Only the number of vectors is used: one per input text (`EmbedsEach`).
- `RecursiveCharacterTextSplitter`, `OpenAIEmbeddings`, `FaissStore.fromDocuments`,
  `similaritySearch` and the language model behind `StuffDocumentsChain` are library or remote
  code. They are function parameters. The Faiss search's default `k` is part of the search
  parameter.
- Failures of the embedder and of the chain are not modelled: both always answer. Failures of
  the Pinecone service are modelled by `fails`.
- `fails` is a fixed function of the request: whether the service accepts a request depends
  neither on its state nor on time. This is why the second run in
  `Indexing.ReindexingIsIdempotent` ends normally without an acceptance hypothesis of its own.
- Async/await is modelled as sequential execution, because every call is awaited before the
  next.
- The 60-second `setTimeout` is a `Waited(60000)` event on the trace, not a measured delay.
- Logging (`logger`, `console.log`) is not modelled.
- Reading `.env` and `process.env` becomes an explicit environment map.
- `DirectoryLoader` (src/create.ts:103-107) is file I/O; `main` takes the loaded documents as
  input. A failure of `loader.load()`, which escapes `main` like a rejected initialisation, is
  not modelled.
- `config` being built once at module load (src/config.ts:52) is not modelled as a global.
  `Configuration.NewConfig` is that one construction; `main` takes the resulting `Config`.
- Joi itself is not modelled. Its checks are written out for this schema with Joi's default
  messages: allowed values are checked before emptiness, and validation stops at the first
  failing key.
- `client.Index(name)` is a local handle, modelled by naming the index in each request.
- `...chunk.metadata` is not modelled: the splitter's chunk metadata holds only `loc`, which
  the record overrides.
- Create.MainEffect: an initialisation rejected by the service is modelled as `main`'s outcome
  `Failed(init)`. The process-level effect of an unhandled promise rejection is not modelled.
- Indexing.ReindexingIsIdempotent: assumes a re-run embeds every chunk to the same vectors.
  `Indexing.ReindexingKeepsIds` states the id-level guarantee for any two embedders.
- PineconeDb.MatchContents: every match is assumed to carry a metadata object, as records
  written by the indexing loop always do. A match without one makes `match.metadata.pageContent`
  throw; that is not modelled.
- src/query.ts, the command-line entry point that chooses the backend, is not part of this
  model.
