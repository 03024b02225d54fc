/**
 * The Pinecone service as the pipeline sees it through `PineconeClient`: a set of named
 * indexes, the records stored in each, and the ordered trace of what the process did
 * against it. Which requests the service rejects, and what a similarity query returns,
 * are parameters of the client: the pipeline never inspects the service's internals.
 */
module Remote {
  import opened Wrappers
  import opened Documents

  /** `VectorItem`: the unit written by an upsert. */
  datatype VectorItem = VectorItem(id: string, values: Embedding, metadata: map<string, string>)

  /** One entry of `queryResult.matches`. */
  datatype Match = Match(id: string, score: real, metadata: map<string, string>)

  datatype Request =
    | InitRequest(apiKey: string, environment: string)
    | ListIndexesRequest
    | CreateIndexRequest(name: string, dimension: nat, metric: string)
    | UpsertRequest(index: string, vectors: seq<VectorItem>)
    | QueryRequest(index: string, vector: Embedding, topK: nat, includeMetadata: bool)

  /**
   * The timeline of the process: requests sent to the service, and the fixed
   * `setTimeout` delays the process takes between them.
   */
  datatype Event = Sent(request: Request) | Waited(ms: nat)

  /** How an operation ended: normally, or by throwing the error of a rejected request. */
  datatype Outcome = Done | Failed(request: Request)

  datatype Store = Store(indexes: seq<string>, vectors: map<string, map<string, VectorItem>>)

  /** The records of one index, keyed by id. */
  function Stored(st: Store, index: string): map<string, VectorItem>
  {
    if index in st.vectors then st.vectors[index] else map[]
  }

  /** The records of one upsert keyed by id; of two items with the same id the later wins. */
  function ItemsById(items: seq<VectorItem>): (m: map<string, VectorItem>)
    ensures m.Keys == set v | v in items :: v.id
    ensures forall id :: id in m ==> m[id] in items && m[id].id == id
  {
    if items == [] then map[]
    else
      var last := items[|items| - 1];
      var m := ItemsById(items[..|items| - 1])[last.id := last];
      assert items == items[..|items| - 1] + [last];
      m
  }

  /** What an accepted request changes in the service. */
  function Apply(st: Store, req: Request): Store
  {
    match req
    case CreateIndexRequest(name, _, _) => st.(indexes := st.indexes + [name])
    case UpsertRequest(index, items) =>
      st.(vectors := st.vectors[index := Stored(st, index) + ItemsById(items)])
    case _ => st
  }

  function ApplyAll(st: Store, reqs: seq<Request>): Store
    decreases |reqs|
  {
    if reqs == [] then st else ApplyAll(Apply(st, reqs[0]), reqs[1..])
  }

  function Sends(reqs: seq<Request>): (events: seq<Event>)
  {
    seq(|reqs|, i requires 0 <= i < |reqs| => Sent(reqs[i]))
  }

  predicate NoneFail(fails: Request -> bool, reqs: seq<Request>)
  {
    forall i :: 0 <= i < |reqs| ==> !fails(reqs[i])
  }

  /** The new state, the events and the outcome of one run of an operation. */
  datatype Effect = Effect(store: Store, events: seq<Event>, outcome: Outcome)

  /**
   * Issuing `reqs` one after another, each awaited: the first rejected request throws,
   * so nothing after it is sent.
   */
  function Run(st: Store, fails: Request -> bool, reqs: seq<Request>): Effect
    decreases |reqs|
  {
    if reqs == [] then Effect(st, [], Done)
    else if fails(reqs[0]) then Effect(st, [Sent(reqs[0])], Failed(reqs[0]))
    else
      var rest := Run(Apply(st, reqs[0]), fails, reqs[1..]);
      Effect(rest.store, [Sent(reqs[0])] + rest.events, rest.outcome)
  }

  lemma {:induction false} ApplyAllSnoc(st: Store, reqs: seq<Request>, r: Request)
    ensures ApplyAll(st, reqs + [r]) == Apply(ApplyAll(st, reqs), r)
    decreases |reqs|
  {
    if reqs != [] {
      assert (reqs + [r])[1..] == reqs[1..] + [r];
      ApplyAllSnoc(Apply(st, reqs[0]), reqs[1..], r);
    }
  }

  lemma {:induction false} ApplyAllAppend(st: Store, a: seq<Request>, b: seq<Request>)
    ensures ApplyAll(st, a + b) == ApplyAll(ApplyAll(st, a), b)
    decreases |a|
  {
    if a == [] {
      assert a + b == b;
    } else {
      assert (a + b)[0] == a[0] && (a + b)[1..] == a[1..] + b;
      ApplyAllAppend(Apply(st, a[0]), a[1..], b);
    }
  }

  /** Solver hint: sequence concatenation regroups. */
  lemma ConcatAssociative<T>(a: seq<T>, b: seq<T>, c: seq<T>)
    ensures a + b + c == a + (b + c)
  {
  }

  /** Solver hint: the trace of concatenated requests concatenates. */
  lemma SendsAppend(a: seq<Request>, b: seq<Request>)
    ensures Sends(a + b) == Sends(a) + Sends(b)
  {
  }

  /** Solver hint: two accepted runs of requests are accepted together. */
  lemma NoneFailAppend(fails: Request -> bool, a: seq<Request>, b: seq<Request>)
    requires NoneFail(fails, a) && NoneFail(fails, b)
    ensures NoneFail(fails, a + b)
  {
  }

  /** When the service accepts every request, all are sent, all take effect, and the run ends normally. */
  lemma {:induction false} RunAccepted(st: Store, fails: Request -> bool, reqs: seq<Request>)
    requires NoneFail(fails, reqs)
    ensures Run(st, fails, reqs) == Effect(ApplyAll(st, reqs), Sends(reqs), Done)
    decreases |reqs|
  {
    if reqs != [] {
      assert !fails(reqs[0]);
      RunAccepted(Apply(st, reqs[0]), fails, reqs[1..]);
      assert Sends(reqs) == [Sent(reqs[0])] + Sends(reqs[1..]);
    }
  }

  /**
   * When `r` is the first rejected request, the run sends everything up to and including `r`,
   * applies only what came before it, and throws `r`'s error.
   */
  lemma {:induction false} RunStopsAtFirstFailure(st: Store, fails: Request -> bool, before: seq<Request>, r: Request, after: seq<Request>)
    requires NoneFail(fails, before) && fails(r)
    ensures Run(st, fails, before + [r] + after) == Effect(ApplyAll(st, before), Sends(before + [r]), Failed(r))
    decreases |before|
  {
    var reqs := before + [r] + after;
    if before == [] {
      assert reqs[0] == r;
      assert Sends([r]) == [Sent(r)];
    } else {
      assert reqs[0] == before[0] && !fails(before[0]);
      assert reqs[1..] == before[1..] + [r] + after;
      RunStopsAtFirstFailure(Apply(st, before[0]), fails, before[1..], r, after);
      assert Sends(before + [r]) == [Sent(before[0])] + Sends(before[1..] + [r]);
    }
  }

  /** A run that ends normally had every request accepted and applied. */
  lemma {:induction false} RunDone(st: Store, fails: Request -> bool, reqs: seq<Request>)
    requires Run(st, fails, reqs).outcome == Done
    ensures NoneFail(fails, reqs)
    ensures Run(st, fails, reqs) == Effect(ApplyAll(st, reqs), Sends(reqs), Done)
    decreases |reqs|
  {
    if reqs != [] {
      RunDone(Apply(st, reqs[0]), fails, reqs[1..]);
      assert forall i :: 1 <= i < |reqs| ==> reqs[i] == reqs[1..][i - 1];
      assert Sends(reqs) == [Sent(reqs[0])] + Sends(reqs[1..]);
    }
  }

  /** After accepted requests, a run goes on as a run of the rest from the state they left. */
  lemma {:induction false} RunAppendAccepted(st: Store, fails: Request -> bool, a: seq<Request>, b: seq<Request>)
    requires NoneFail(fails, a)
    ensures var rest := Run(ApplyAll(st, a), fails, b);
            Run(st, fails, a + b) == Effect(rest.store, Sends(a) + rest.events, rest.outcome)
    decreases |a|
  {
    if a == [] {
      assert a + b == b;
    } else {
      assert (a + b)[0] == a[0] && (a + b)[1..] == a[1..] + b;
      RunAppendAccepted(Apply(st, a[0]), fails, a[1..], b);
      assert Sends(a) == [Sent(a[0])] + Sends(a[1..]);
    }
  }

  /** Once a run has thrown, the requests after it make no difference. */
  lemma {:induction false} RunFailedIgnoresRest(st: Store, fails: Request -> bool, a: seq<Request>, c: seq<Request>)
    requires Run(st, fails, a).outcome.Failed?
    ensures Run(st, fails, a + c) == Run(st, fails, a)
    decreases |a|
  {
    assert (a + c)[0] == a[0];
    if !fails(a[0]) {
      assert (a + c)[1..] == a[1..] + c;
      RunFailedIgnoresRest(Apply(st, a[0]), fails, a[1..], c);
    }
  }

  /**
   * When the requests before `mine` are accepted and `mine` throws, the whole run is the
   * accepted prefix followed by `mine`'s run; nothing after `mine` is sent.
   */
  lemma RunThrownWithin(st: Store, fails: Request -> bool, before: seq<Request>, mine: seq<Request>, after: seq<Request>)
    requires NoneFail(fails, before) && Run(ApplyAll(st, before), fails, mine).outcome.Failed?
    ensures var e := Run(ApplyAll(st, before), fails, mine);
            Run(st, fails, before + (mine + after)) == Effect(e.store, Sends(before) + e.events, e.outcome)
  {
    RunFailedIgnoresRest(ApplyAll(st, before), fails, mine, after);
    RunAppendAccepted(st, fails, before, mine + after);
  }

  /** All requests are upserts into `index`. */
  predicate UpsertsInto(reqs: seq<Request>, index: string)
  {
    forall i :: 0 <= i < |reqs| ==> reqs[i].UpsertRequest? && reqs[i].index == index
  }

  /** Every record the upserts write, keyed by id; a later write of an id replaces an earlier one. */
  function Written(reqs: seq<Request>): map<string, VectorItem>
    requires forall i :: 0 <= i < |reqs| ==> reqs[i].UpsertRequest?
  {
    if reqs == [] then map[] else ItemsById(reqs[0].vectors) + Written(reqs[1..])
  }

  /** Solver hint: map union regroups. */
  lemma MapUnionAssociative(a: map<string, VectorItem>, b: map<string, VectorItem>, c: map<string, VectorItem>)
    ensures a + b + c == a + (b + c)
  {
  }

  /** Solver hint: merging the same map twice is merging it once. */
  lemma MapUnionAbsorbs(a: map<string, VectorItem>, b: map<string, VectorItem>)
    ensures a + b + b == a + b
  {
  }

  /** Solver hint: the later of two updates at one key wins. */
  lemma MapUpdateTwice(m: map<string, map<string, VectorItem>>, k: string, v: map<string, VectorItem>, w: map<string, VectorItem>)
    ensures m[k := v][k := w] == m[k := w]
  {
  }

  /** Upserts into one index overwrite that index's records by id and leave everything else alone. */
  lemma {:induction false} ApplyAllUpserts(st: Store, reqs: seq<Request>, index: string)
    requires UpsertsInto(reqs, index) && reqs != []
    ensures ApplyAll(st, reqs) == st.(vectors := st.vectors[index := Stored(st, index) + Written(reqs)])
    decreases |reqs|
  {
    var items := ItemsById(reqs[0].vectors);
    var st1 := st.(vectors := st.vectors[index := Stored(st, index) + items]);
    assert Apply(st, reqs[0]) == st1;
    assert ApplyAll(st, reqs) == ApplyAll(st1, reqs[1..]);
    if |reqs| == 1 {
      assert Written(reqs[1..]) == map[];
      assert Written(reqs) == items;
    } else {
      var rest := Written(reqs[1..]);
      assert UpsertsInto(reqs[1..], index);
      ApplyAllUpserts(st1, reqs[1..], index);
      assert Stored(st1, index) == Stored(st, index) + items;
      MapUnionAssociative(Stored(st, index), items, rest);
      assert Written(reqs) == items + rest;
      MapUpdateTwice(st.vectors, index, Stored(st, index) + items, Stored(st, index) + Written(reqs));
    }
  }

  /**
   * Two runs of upserts that write the same ids, request by request, into the same indexes;
   * their vectors and metadata may differ.
   */
  predicate SameIds(reqs1: seq<Request>, reqs2: seq<Request>)
  {
    && |reqs1| == |reqs2|
    && forall k :: 0 <= k < |reqs1| ==>
         && reqs1[k].UpsertRequest? && reqs2[k].UpsertRequest?
         && reqs1[k].index == reqs2[k].index
         && ItemsById(reqs1[k].vectors).Keys == ItemsById(reqs2[k].vectors).Keys
  }

  lemma SameIdsAppend(a1: seq<Request>, a2: seq<Request>, b1: seq<Request>, b2: seq<Request>)
    requires SameIds(a1, a2) && SameIds(b1, b2)
    ensures SameIds(a1 + b1, a2 + b2)
  {
    forall k | |a1| <= k < |a1| + |b1|
      ensures (a1 + b1)[k] == b1[k - |a1|] && (a2 + b2)[k] == b2[k - |a1|]
    {
    }
  }

  /** Upserts that write the same ids leave the same set of ids written, whatever the vectors. */
  lemma {:induction false} WrittenKeys(reqs1: seq<Request>, reqs2: seq<Request>)
    requires SameIds(reqs1, reqs2)
    ensures Written(reqs1).Keys == Written(reqs2).Keys
    decreases |reqs1|
  {
    if reqs1 != [] {
      assert SameIds(reqs1[1..], reqs2[1..]) by {
        forall k | 0 <= k < |reqs1| - 1
          ensures reqs1[1..][k] == reqs1[k + 1] && reqs2[1..][k] == reqs2[k + 1]
        {
        }
      }
      WrittenKeys(reqs1[1..], reqs2[1..]);
    }
  }

  /** After a run of upserts, a second run writing the same ids adds no id to the index. */
  lemma SameIdsKeepKeys(st: Store, reqs1: seq<Request>, reqs2: seq<Request>, index: string)
    requires UpsertsInto(reqs1, index) && UpsertsInto(reqs2, index) && SameIds(reqs1, reqs2)
    ensures Stored(ApplyAll(ApplyAll(st, reqs1), reqs2), index).Keys == Stored(ApplyAll(st, reqs1), index).Keys
  {
    if reqs1 != [] {
      var once := ApplyAll(st, reqs1);
      ApplyAllUpserts(st, reqs1, index);
      ApplyAllUpserts(once, reqs2, index);
      WrittenKeys(reqs1, reqs2);
      MapUnionKeysAbsorb(Stored(st, index), Written(reqs1), Written(reqs2));
    }
  }

  /** Solver hint: a union with a map over keys already present adds no key. */
  lemma MapUnionKeysAbsorb(a: map<string, VectorItem>, b: map<string, VectorItem>, c: map<string, VectorItem>)
    requires c.Keys == b.Keys
    ensures (a + b + c).Keys == (a + b).Keys
  {
  }

  /** Replaying the same upserts leaves the store as one replay left it: re-upserting overwrites, it does not duplicate. */
  lemma UpsertsIdempotent(st: Store, reqs: seq<Request>, index: string)
    requires UpsertsInto(reqs, index)
    ensures ApplyAll(ApplyAll(st, reqs), reqs) == ApplyAll(st, reqs)
  {
    if reqs != [] {
      var once := ApplyAll(st, reqs);
      ApplyAllUpserts(st, reqs, index);
      ApplyAllUpserts(once, reqs, index);
      var w := Written(reqs);
      assert Stored(once, index) == Stored(st, index) + w;
      MapUnionAbsorbs(Stored(st, index), w);
      MapUpdateTwice(st.vectors, index, Stored(st, index) + w, Stored(st, index) + w);
    }
  }

  /**
   * The Pinecone client. `fails` says which requests the service rejects (a rejected request
   * makes the awaited call throw); `search` is the service's answer to a similarity query
   * over the records of an index.
   */
  class PineconeClient {
    const fails: Request -> bool
    const search: (map<string, VectorItem>, Embedding, nat) -> Option<seq<Match>>
    var store: Store
    var trace: seq<Event>

    constructor (fails: Request -> bool, search: (map<string, VectorItem>, Embedding, nat) -> Option<seq<Match>>, store: Store)
      ensures this.fails == fails && this.search == search
      ensures this.store == store && trace == []
    {
      this.fails := fails;
      this.search := search;
      this.store := store;
      trace := [];
    }

    /** Sends one request; the service applies it unless it rejects it. */
    method Send(req: Request) returns (ok: bool)
      modifies this
      ensures ok == !fails(req)
      ensures trace == old(trace) + [Sent(req)]
      ensures store == if ok then Apply(old(store), req) else old(store)
    {
      ok := !fails(req);
      trace := trace + [Sent(req)];
      if ok {
        store := Apply(store, req);
      }
    }

    method Init(apiKey: string, environment: string) returns (ok: bool)
      modifies this
      ensures ok == !fails(InitRequest(apiKey, environment))
      ensures trace == old(trace) + [Sent(InitRequest(apiKey, environment))]
      ensures store == old(store)
    {
      ok := Send(InitRequest(apiKey, environment));
    }

    method ListIndexes() returns (ok: bool, names: seq<string>)
      modifies this
      ensures ok == !fails(ListIndexesRequest)
      ensures trace == old(trace) + [Sent(ListIndexesRequest)]
      ensures store == old(store)
      ensures ok ==> names == store.indexes
    {
      ok := Send(ListIndexesRequest);
      names := if ok then store.indexes else [];
    }

    method CreateIndex(name: string, dimension: nat, metric: string) returns (ok: bool)
      modifies this
      ensures ok == !fails(CreateIndexRequest(name, dimension, metric))
      ensures trace == old(trace) + [Sent(CreateIndexRequest(name, dimension, metric))]
      ensures store == if ok then Apply(old(store), CreateIndexRequest(name, dimension, metric)) else old(store)
    {
      ok := Send(CreateIndexRequest(name, dimension, metric));
    }

    method Upsert(index: string, vectors: seq<VectorItem>) returns (ok: bool)
      modifies this
      ensures ok == !fails(UpsertRequest(index, vectors))
      ensures trace == old(trace) + [Sent(UpsertRequest(index, vectors))]
      ensures store == if ok then Apply(old(store), UpsertRequest(index, vectors)) else old(store)
    {
      ok := Send(UpsertRequest(index, vectors));
    }

    method Query(index: string, vector: Embedding, topK: nat, includeMetadata: bool)
      returns (ok: bool, matches: Option<seq<Match>>)
      modifies this
      ensures ok == !fails(QueryRequest(index, vector, topK, includeMetadata))
      ensures trace == old(trace) + [Sent(QueryRequest(index, vector, topK, includeMetadata))]
      ensures store == old(store)
      ensures ok ==> matches == search(Stored(store, index), vector, topK)
    {
      ok := Send(QueryRequest(index, vector, topK, includeMetadata));
      matches := if ok then search(Stored(store, index), vector, topK) else None;
    }

    /** `await new Promise(resolve => setTimeout(resolve, ms))`, recorded on the same timeline. */
    method Wait(ms: nat)
      modifies this
      ensures trace == old(trace) + [Waited(ms)]
      ensures store == old(store)
    {
      trace := trace + [Waited(ms)];
    }
  }
}
