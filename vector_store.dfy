/** The vector store of workspace-chatbot.js: the ChromaDB backend it talks to, reduced to the one
    collection the chatbot uses, and the `ChromaVectorStore` adapter around it. */
module VectorStore {
  import opened Wrappers
  import opened JsText

  type Embedding = seq<real>

  /** A record of documents.json. Metadata travels through the store as JSON text and is parsed
      back; that round trip is the identity here. */
  datatype Document = Document(content: string, category: Option<string>, source: Option<string>,
                               title: Option<string>)

  /** One window of a document's text, with the whole document as its metadata. */
  datatype Chunk = Chunk(content: string, metadata: Document)

  /** What the collection stores per added item. */
  datatype Record = Record(id: string, embedding: Embedding, metadata: Document, document: string)

  /** One entry of the backend's nearest-neighbour ranking: a position in the collection and its
      cosine distance from the query. */
  datatype Neighbour = Neighbour(index: nat, distance: real)

  /** The arrays a query returns, one row per query embedding. */
  datatype QueryReply = QueryReply(ids: seq<seq<string>>, documents: seq<seq<string>>,
                                   metadatas: seq<seq<Document>>, distances: seq<seq<real>>)

  /** What `similaritySearch` returns per hit: `{ document: { content, metadata }, similarity }`. */
  datatype SimilarityResult = SimilarityResult(content: string, metadata: Document, similarity: real)

  const CollectionName: string := "myworkspace-collection"
  const FetchFailed: string := "fetch failed"
  const NoSuchCollection: string := "Collection myworkspace-collection does not exist."
  const LengthMismatch: string := "Expected ids, embeddings, metadatas and documents to have the same length"
  const DuplicateIds: string := "Expected IDs to be unique"
  const NotInitialised: string := "ChromaDB 컬렉션이 초기화되지 않았습니다."

  /** What `deleteCollection` looks for in an error message to tell a missing collection. */
  const Missing: string := "does not exist"

  /** The server's message for a missing collection is recognised; a network failure's is not. */
  lemma MissingCollectionMessages()
    ensures Includes(NoSuchCollection, Missing) && !Includes(FetchFailed, Missing)
  {
    assert NoSuchCollection == "Collection myworkspace-collection " + Missing + ".";
    IncludesConcat("Collection myworkspace-collection ", Missing, ".");
    if Includes(FetchFailed, Missing) {
      IncludesShorter(FetchFailed, Missing);
    }
  }

  predicate Distinct(ids: seq<string>)
  {
    forall i, j :: 0 <= i < j < |ids| ==> ids[i] != ids[j]
  }

  /** The hits of a ranking that name a stored item, at most `n` of them, in ranking order. */
  function Hits(ranking: seq<Neighbour>, size: nat, n: nat): (r: seq<Neighbour>)
    ensures |r| <= n
    ensures forall i :: 0 <= i < |r| ==> r[i].index < size && r[i] in ranking
    decreases |ranking|
  {
    if ranking == [] || n == 0 then []
    else if ranking[0].index < size then [ranking[0]] + Hits(ranking[1..], size, n - 1)
    else Hits(ranking[1..], size, n)
  }

  /** The ChromaDB server, as far as the chatbot's collection goes. Requests are numbered in the
      order they are sent; whether each one reaches the server is fixed in advance by `up`, so a
      request may fail after an earlier one succeeded. */
  class ChromaServer {
    /** Whether the request with each number reaches the server. */
    const up: nat -> bool
    /** How many requests have been sent. */
    var sent: nat
    /** The handle of the collection named `myworkspace-collection`, when it exists. */
    var live: Option<nat>
    /** The items of that collection, in insertion order. */
    var records: seq<Record>
    /** The handle the next created collection gets. */
    var nextHandle: nat
    /** The server's nearest-neighbour ranking of the stored items for a query embedding. */
    const rank: (Embedding, seq<Record>) -> seq<Neighbour>

    constructor (up: nat -> bool, rank: (Embedding, seq<Record>) -> seq<Neighbour>)
      ensures this.up == up && this.rank == rank
      ensures sent == 0 && live == None && records == [] && nextHandle == 0
    {
      this.up := up;
      this.rank := rank;
      sent := 0;
      live := None;
      records := [];
      nextHandle := 0;
    }

    /** Whether the next request reaches the server. */
    predicate Reachable()
      reads this
    {
      up(sent)
    }

    /** `getOrCreateCollection`: the existing collection, or a new empty one. */
    method GetOrCreateCollection() returns (r: Result<nat>)
      modifies this
      ensures sent == old(sent) + 1
      ensures !up(old(sent)) ==> r == Err(FetchFailed) && live == old(live) && records == old(records)
                                 && nextHandle == old(nextHandle)
      ensures up(old(sent)) && old(live).Some? ==>
                r == Ok(old(live).value) && live == old(live) && records == old(records) && nextHandle == old(nextHandle)
      ensures up(old(sent)) && old(live).None? ==>
                r == Ok(old(nextHandle)) && live == Some(old(nextHandle)) && records == [] && nextHandle == old(nextHandle) + 1
      ensures r.Ok? ==> live == Some(r.value)
    {
      var reached := up(sent);
      sent := sent + 1;
      if !reached {
        r := Err(FetchFailed);
      } else if live.Some? {
        r := Ok(live.value);
      } else {
        live := Some(nextHandle);
        records := [];
        r := Ok(nextHandle);
        nextHandle := nextHandle + 1;
      }
    }

    /** `deleteCollection`: drops the collection and its items; an error when there is none. */
    method DeleteCollection() returns (o: Outcome)
      modifies this
      ensures sent == old(sent) + 1 && nextHandle == old(nextHandle)
      ensures !up(old(sent)) ==> o == Fail(FetchFailed) && live == old(live) && records == old(records)
      ensures up(old(sent)) && old(live).None? ==> o == Fail(NoSuchCollection) && live == None && records == old(records)
      ensures up(old(sent)) && old(live).Some? ==> o == Pass && live == None && records == []
    {
      var reached := up(sent);
      sent := sent + 1;
      if !reached {
        o := Fail(FetchFailed);
      } else if live.None? {
        o := Fail(NoSuchCollection);
      } else {
        live := None;
        records := [];
        o := Pass;
      }
    }

    /** `collection.count()` on the collection behind handle `h`. */
    method Count(h: nat) returns (r: Result<nat>)
      modifies this
      ensures sent == old(sent) + 1 && live == old(live) && records == old(records) && nextHandle == old(nextHandle)
      ensures r.Ok? <==> up(old(sent)) && live == Some(h)
      ensures r.Ok? ==> r.value == |records|
      ensures !up(old(sent)) ==> r == Err(FetchFailed)
    {
      var reached := up(sent);
      sent := sent + 1;
      if !reached {
        r := Err(FetchFailed);
      } else if live != Some(h) {
        r := Err(NoSuchCollection);
      } else {
        r := Ok(|records|);
      }
    }

    /** `collection.add`: appends aligned items with fresh, distinct ids, or fails and adds nothing. */
    method Add(h: nat, ids: seq<string>, embeddings: seq<Embedding>, metadatas: seq<Document>,
               documents: seq<string>) returns (o: Outcome)
      modifies this
      ensures sent == old(sent) + 1 && live == old(live) && nextHandle == old(nextHandle)
      ensures o.Pass? <==> up(old(sent)) && live == Some(h) && |embeddings| == |metadatas| == |documents| == |ids|
                           && Distinct(ids) && forall k, i :: 0 <= k < |old(records)| && 0 <= i < |ids| ==>
                                              old(records)[k].id != ids[i]
      ensures o.Pass? ==> records == old(records) +
                            seq(|ids|, i requires 0 <= i < |ids| => Record(ids[i], embeddings[i], metadatas[i], documents[i]))
      ensures o.Fail? ==> records == old(records)
      ensures !up(old(sent)) ==> o == Fail(FetchFailed)
    {
      var reached := up(sent);
      sent := sent + 1;
      if !reached {
        o := Fail(FetchFailed);
      } else if live != Some(h) {
        o := Fail(NoSuchCollection);
      } else if !(|embeddings| == |metadatas| == |documents| == |ids|) {
        o := Fail(LengthMismatch);
      } else if !Distinct(ids) || exists k, i :: 0 <= k < |records| && 0 <= i < |ids| && records[k].id == ids[i] {
        o := Fail(DuplicateIds);
      } else {
        records := records +
          seq(|ids|, i requires 0 <= i < |ids| => Record(ids[i], embeddings[i], metadatas[i], documents[i]));
        o := Pass;
      }
    }

    /** `collection.query` with one query embedding: the first `n` ranked items, as one row of each
        array. It is answered as the next request would be, without being counted. */
    function Query(h: nat, query: Embedding, n: nat): (r: Result<QueryReply>)
      reads this
      ensures r.Ok? <==> Reachable() && live == Some(h)
      ensures r.Ok? ==> Aligned(r.value) && |r.value.ids| == 1 && |r.value.ids[0]| <= n
      ensures r.Ok? ==> forall i :: 0 <= i < |r.value.ids[0]| ==>
                          exists k :: 0 <= k < |records| && r.value.ids[0][i] == records[k].id
                            && r.value.documents[0][i] == records[k].document
                            && r.value.metadatas[0][i] == records[k].metadata
    {
      if !Reachable() then Err(FetchFailed)
      else if live != Some(h) then Err(NoSuchCollection)
      else
        var recs := records;
        var hits := Hits(rank(query, recs), |recs|, n);
        var reply := QueryReply(
          [seq(|hits|, i requires 0 <= i < |hits| => recs[hits[i].index].id)],
          [seq(|hits|, i requires 0 <= i < |hits| => recs[hits[i].index].document)],
          [seq(|hits|, i requires 0 <= i < |hits| => recs[hits[i].index].metadata)],
          [seq(|hits|, i requires 0 <= i < |hits| => hits[i].distance)]);
        assert forall i :: 0 <= i < |hits| ==>
                 reply.ids[0][i] == recs[hits[i].index].id && reply.documents[0][i] == recs[hits[i].index].document
                 && reply.metadatas[0][i] == recs[hits[i].index].metadata;
        Ok(reply)
    }
  }

  /** The first row of every array is at least as long as the first row of ids. */
  predicate Aligned(reply: QueryReply)
  {
    |reply.ids| > 0 ==>
      && |reply.documents| > 0 && |reply.metadatas| > 0 && |reply.distances| > 0
      && |reply.documents[0]| >= |reply.ids[0]| && |reply.metadatas[0]| >= |reply.ids[0]|
      && |reply.distances[0]| >= |reply.ids[0]|
  }

  /** The result mapping of `similaritySearch`: nothing when the first row of ids is missing or
      empty, otherwise one result per id in backend order, with similarity one minus distance. */
  function FromReply(reply: QueryReply): (r: seq<SimilarityResult>)
    requires Aligned(reply)
    ensures |reply.ids| == 0 ==> r == []
    ensures |reply.ids| > 0 ==> |r| == |reply.ids[0]|
    ensures |reply.ids| > 0 ==> forall i :: 0 <= i < |reply.ids[0]| ==>
              r[i].content == reply.documents[0][i] &&
              r[i].metadata == reply.metadatas[0][i] &&
              r[i].similarity + reply.distances[0][i] == 1.0
  {
    if |reply.ids| == 0 || |reply.ids[0]| == 0 then []
    else seq(|reply.ids[0]|, i requires 0 <= i < |reply.ids[0]| =>
               SimilarityResult(reply.documents[0][i], reply.metadatas[0][i], 1.0 - reply.distances[0][i]))
  }

  /** `doc_chunk_${Date.now()}_${index}`: the fixed prefix, and the index after the last `_`. */
  function ChunkId(now: nat, index: nat): (id: string)
    ensures |id| > |ChunkIdPrefix| && id[..|ChunkIdPrefix|] == ChunkIdPrefix
    ensures AfterLastUnderscore(id) == DecimalString(index)
  {
    var d := DecimalString(index);
    assert '_' !in d by {
      assert forall k :: 0 <= k < |d| ==> '0' <= d[k] <= '9';
    }
    AfterLastUnderscoreOf(ChunkIdPrefix + DecimalString(now), d);
    ChunkIdPrefix + DecimalString(now) + "_" + d
  }

  const ChunkIdPrefix: string := "doc_chunk_"

  /** What follows the last `_`. */
  function AfterLastUnderscore(s: string): string
    decreases |s|
  {
    if s == [] || s[|s| - 1] == '_' then [] else AfterLastUnderscore(s[..|s| - 1]) + [s[|s| - 1]]
  }

  lemma {:induction false} AfterLastUnderscoreOf(p: string, d: string)
    requires '_' !in d
    ensures AfterLastUnderscore(p + "_" + d) == d
    decreases |d|
  {
    var s := p + "_" + d;
    if d == [] {
      assert s[|s| - 1] == '_';
    } else {
      assert s[..|s| - 1] == p + "_" + d[..|d| - 1];
      assert s[|s| - 1] == d[|d| - 1];
      AfterLastUnderscoreOf(p, d[..|d| - 1]);
    }
  }

  /** Two ids of one batch differ whenever their indices differ, whatever the clock read. */
  lemma ChunkIdsDiffer(t1: nat, i: nat, t2: nat, j: nat)
    requires i != j
    ensures ChunkId(t1, i) != ChunkId(t2, j)
  {
    if ChunkId(t1, i) == ChunkId(t2, j) {
      DecimalStringInjective(i, j);
    }
  }

  /** The ids of one `addDocuments` call: the clock is read once per chunk. */
  function BatchIds(now: nat -> nat, count: nat): (ids: seq<string>)
    ensures |ids| == count && Distinct(ids)
  {
    var ids := seq(count, i requires 0 <= i < count => ChunkId(now(i), i));
    assert Distinct(ids) by {
      forall i, j | 0 <= i < j < count ensures ids[i] != ids[j] {
        ChunkIdsDiffer(now(i), i, now(j), j);
      }
    }
    ids
  }

  /** The `ChromaVectorStore` adapter: a client for the server and a nullable collection handle. */
  class ChromaVectorStore {
    const server: ChromaServer
    /** `this.collection`; `None` is `null`. */
    var collection: Option<nat>

    constructor (server: ChromaServer)
      ensures this.server == server && collection == None
    {
      this.server := server;
      collection := None;
    }

    /** `initialize`: binds the collection (creating it when missing) and returns its size; a
        failure leaves the handle as it was and is passed on. */
    method Initialize() returns (r: Result<nat>)
      modifies this, server
      ensures !server.up(old(server.sent)) ==>
                && r == Err(FetchFailed) && server.sent == old(server.sent) + 1 && collection == old(collection)
                && server.live == old(server.live) && server.records == old(server.records)
      ensures server.up(old(server.sent)) ==>
                && server.sent == old(server.sent) + 2 && server.live.Some? && collection == server.live
                && (old(server.live).Some? ==> server.live == old(server.live) && server.records == old(server.records))
                && (old(server.live).None? ==> server.live == Some(old(server.nextHandle)) && server.records == [])
                && (r.Ok? <==> server.up(old(server.sent) + 1))
      ensures r.Ok? ==> r.value == |server.records|
      ensures r.Err? ==> r == Err(FetchFailed)
    {
      var got := server.GetOrCreateCollection();
      if got.Err? {
        return Err(got.message);
      }
      collection := Some(got.value);
      r := server.Count(got.value);
    }

    /** `deleteCollection`: a missing collection is not an error. The handle is kept. */
    method DeleteCollection() returns (o: Outcome)
      modifies server
      ensures server.sent == old(server.sent) + 1 && server.nextHandle == old(server.nextHandle)
      ensures o.Pass? <==> server.up(old(server.sent))
      ensures o.Fail? ==> o == Fail(FetchFailed)
      ensures server.up(old(server.sent)) ==> server.live == None
      ensures server.up(old(server.sent)) && old(server.live).Some? ==> server.records == []
      ensures server.up(old(server.sent)) && old(server.live).None? ==> server.records == old(server.records)
      ensures !server.up(old(server.sent)) ==> server.live == old(server.live) && server.records == old(server.records)
    {
      MissingCollectionMessages();
      o := server.DeleteCollection();
      if o.Fail? && Includes(o.message, Missing) {
        o := Pass;
      }
    }

    /** `addDocuments(chunks, embeddings)`: refuses without a bound collection; otherwise stores
        each chunk's text and metadata under an id of its own. */
    method AddDocuments(chunks: seq<Chunk>, embeddings: seq<Embedding>, now: nat -> nat) returns (o: Outcome)
      modifies server
      ensures server.live == old(server.live) && server.nextHandle == old(server.nextHandle)
      ensures collection.None? ==> o == Fail(NotInitialised) && server.records == old(server.records)
                                   && server.sent == old(server.sent)
      ensures collection.Some? ==> server.sent == old(server.sent) + 1
      ensures collection.Some? && !server.up(old(server.sent)) ==> o == Fail(FetchFailed)
      ensures o.Pass? <==> collection.Some? && server.up(old(server.sent)) && server.live == collection
                           && |embeddings| == |chunks| && FreshIds(old(server.records), BatchIds(now, |chunks|))
      ensures o.Pass? ==> server.records == old(server.records) + ChunkRecords(BatchIds(now, |chunks|), chunks, embeddings)
      ensures o.Fail? ==> server.records == old(server.records)
    {
      if collection.None? {
        return Fail(NotInitialised);
      }
      var ids := BatchIds(now, |chunks|);
      var documents := seq(|chunks|, i requires 0 <= i < |chunks| => chunks[i].content);
      var metadatas := seq(|chunks|, i requires 0 <= i < |chunks| => chunks[i].metadata);
      o := server.Add(collection.value, ids, embeddings, metadatas, documents);
      if o.Pass? {
        assert server.records == old(server.records) + ChunkRecords(ids, chunks, embeddings);
      }
    }

    /** `similaritySearch(queryEmbedding, topK)`: refuses without a bound collection; otherwise at
        most `topK` results, each the text and metadata of a stored item. */
    function SimilaritySearch(query: Embedding, topK: nat): (r: Result<seq<SimilarityResult>>)
      reads this, server
      ensures collection.None? ==> r == Err(NotInitialised)
      ensures r.Ok? <==> collection.Some? && server.Reachable() && server.live == collection
      ensures r.Ok? ==> |r.value| <= topK
      ensures r.Ok? ==> forall i :: 0 <= i < |r.value| ==>
                          exists k :: 0 <= k < |server.records| && r.value[i].content == server.records[k].document
                                        && r.value[i].metadata == server.records[k].metadata
    {
      if collection.None? then Err(NotInitialised)
      else
        var reply := server.Query(collection.value, query, topK);
        if reply.Err? then Err(reply.message)
        else
          var r := FromReply(reply.value);
          assert forall i :: 0 <= i < |r| ==>
                   r[i].content == reply.value.documents[0][i] && r[i].metadata == reply.value.metadatas[0][i];
          Ok(r)
    }
  }

  /** No id of the batch is already stored. */
  predicate FreshIds(records: seq<Record>, ids: seq<string>)
  {
    forall k, i :: 0 <= k < |records| && 0 <= i < |ids| ==> records[k].id != ids[i]
  }

  /** The items `addDocuments` asks the server to store, aligned by position. */
  function ChunkRecords(ids: seq<string>, chunks: seq<Chunk>, embeddings: seq<Embedding>): (r: seq<Record>)
    requires |ids| == |chunks| == |embeddings|
    ensures |r| == |chunks|
    ensures forall i :: 0 <= i < |r| ==> r[i].document == chunks[i].content && r[i].metadata == chunks[i].metadata
  {
    seq(|chunks|, i requires 0 <= i < |chunks| => Record(ids[i], embeddings[i], chunks[i].metadata, chunks[i].content))
  }
}
