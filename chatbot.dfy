/** The `WorkspaceChatbot` class of workspace-chatbot.js: building the index from the document
    file, rebuilding it on a change, and answering a question through classification, retrieval
    and generation. */
module Chatbot {
  import opened Wrappers
  import opened JsText
  import opened Config
  import opened Chunker
  import opened VectorStore
  import opened Pipeline

  const ChunkSize: nat := 500

  const GreetingReply: string := "안녕하세요! 마이워크스페이스 AI 상담원입니다. 무엇을 도와드릴까요?"
  const RefusalReply: string :=
    "죄송하지만 문의하신 내용에 대해서는 답변해 드릴 수 없습니다. 공유오피스 관련 질문을 해주세요."
  const Apology: string := "죄송합니다, 일시적인 시스템 오류가 발생했습니다."

  /** How many results the retrieval path asks for. */
  const RetrievalTopK: nat := 5

  /** `documents.json` as `initialize` and `reindexDocuments` see it: a read or parse error, or
      the parsed object's `documents` field, which may be absent. */
  datatype DocumentsFile = Unreadable(error: string) | Loaded(documents: Option<seq<Document>>)

  /** The documents a build embeds: none when the field is absent or the list is empty. */
  function ToBuild(file: DocumentsFile): (r: Option<seq<Document>>)
    ensures r.Some? <==> file.Loaded? && file.documents.Some? && file.documents.value != []
    ensures r.Some? ==> r.value == file.documents.value
  {
    if file.Loaded? && file.documents.Some? && file.documents.value != [] then file.documents else None
  }

  // ---------------------------------------------------------------- what a build computes

  /** The chunks of one document, each carrying the whole document as its metadata. */
  function ChunksOf(doc: Document): (r: seq<Chunk>)
    ensures |r| == |Chunks(doc.content, ChunkSize)|
    ensures forall i :: 0 <= i < |r| ==> r[i].content == Chunks(doc.content, ChunkSize)[i] && r[i].metadata == doc
  {
    var pieces := Chunks(doc.content, ChunkSize);
    seq(|pieces|, i requires 0 <= i < |pieces| => Chunk(pieces[i], doc))
  }

  /** `chunksToEmbed` after the loop: the chunks of every document, document by document. */
  function DocumentChunks(docs: seq<Document>): (r: seq<Chunk>)
    ensures forall i :: 0 <= i < |r| ==> r[i].metadata in docs
    decreases |docs|
  {
    if docs == [] then []
    else
      var front := DocumentChunks(docs[..|docs| - 1]);
      assert forall i :: 0 <= i < |front| ==> front[i].metadata in docs;
      front + ChunksOf(docs[|docs| - 1])
  }

  /** `embeddingsToStore` after the loop: each chunk's embedding in order, or the error of the
      first chunk whose embedding fails. */
  function EmbedAll(embed: string -> EmbedReply, chunks: seq<Chunk>): (r: Result<seq<Embedding>>)
    ensures r.Ok? ==> |r.value| == |chunks|
    ensures r.Ok? ==> forall i :: 0 <= i < |chunks| ==> EmbeddingOf(embed(chunks[i].content)) == Ok(r.value[i])
    ensures r.Err? ==> exists i :: 0 <= i < |chunks| && EmbeddingOf(embed(chunks[i].content)) == Err(r.message)
                                   && forall j :: 0 <= j < i ==> EmbeddingOf(embed(chunks[j].content)).Ok?
    decreases |chunks|
  {
    if chunks == [] then Ok([])
    else
      var front := chunks[..|chunks| - 1];
      var prev := EmbedAll(embed, front);
      assert forall i :: 0 <= i < |front| ==> front[i] == chunks[i];
      if prev.Err? then prev
      else match EmbeddingOf(embed(chunks[|chunks| - 1].content))
        case Err(m) => Err(m)
        case Ok(v) => Ok(prev.value + [v])
  }

  /** What a successful build stores: the chunk records under the batch's ids; `None` when an
      embedding fails. */
  function Indexed(embed: string -> EmbedReply, docs: seq<Document>, now: nat -> nat): (r: Option<seq<Record>>)
    ensures r.Some? <==> EmbedAll(embed, DocumentChunks(docs)).Ok?
    ensures r.Some? ==> |r.value| == |DocumentChunks(docs)|
  {
    var chunks := DocumentChunks(docs);
    match EmbedAll(embed, chunks)
    case Err(_) => None
    case Ok(es) => Some(ChunkRecords(BatchIds(now, |chunks|), chunks, es))
  }

  /** The outcome of `initialize` from the server state it starts in, its requests numbered from
      `sent`: binding the collection and counting it come first; over a non-empty collection a
      second count follows, and otherwise the file is read and built, the batch being stored by
      the third request. Any failed request fails it with the backend's error. */
  function InitializeOutcome(up: nat -> bool, sent: nat, live: Option<nat>, records: seq<Record>,
                             file: DocumentsFile, embed: string -> EmbedReply): (o: Outcome)
    ensures !up(sent) || !up(sent + 1) ==> o == Fail(FetchFailed)
    ensures up(sent) && up(sent + 1) && live.Some? && |records| > 0 ==> (o.Pass? <==> up(sent + 2))
    ensures up(sent) && up(sent + 1) && !(live.Some? && |records| > 0) && file.Loaded? && ToBuild(file).None? ==>
              o == Pass
    ensures o.Fail? && up(sent) && up(sent + 1) && up(sent + 2) ==>
              file.Unreadable? || (ToBuild(file).Some? && EmbedAll(embed, DocumentChunks(ToBuild(file).value)).Err?)
  {
    if !up(sent) || !up(sent + 1) then Fail(FetchFailed)
    else if live.Some? && |records| > 0 then (if up(sent + 2) then Pass else Fail(FetchFailed))
    else if file.Unreadable? then Fail(file.error)
    else match ToBuild(file)
      case None => Pass
      case Some(docs) =>
        match EmbedAll(embed, DocumentChunks(docs))
        case Err(m) => Fail(m)
        case Ok(_) => if up(sent + 2) then Pass else Fail(FetchFailed)
  }

  // ---------------------------------------------------------------- properties of a build

  /** Chunks appear document by document: the chunks of two lists back to back are the chunks of
      the joined list. */
  lemma {:induction false} DocumentChunksConcat(a: seq<Document>, b: seq<Document>)
    ensures DocumentChunks(a + b) == DocumentChunks(a) + DocumentChunks(b)
    decreases |b|
  {
    if b == [] {
      assert a + b == a;
    } else {
      var b' := b[..|b| - 1];
      assert (a + b)[..|a + b| - 1] == a + b';
      assert (a + b)[|a + b| - 1] == b[|b| - 1];
      DocumentChunksConcat(a, b');
    }
  }

  /** One more document adds exactly its own chunks at the end. */
  lemma DocumentChunksSnoc(docs: seq<Document>, d: nat)
    requires d < |docs|
    ensures DocumentChunks(docs[..d + 1]) == DocumentChunks(docs[..d]) + ChunksOf(docs[d])
  {
    assert docs[..d + 1][..d] == docs[..d];
  }

  /** The texts of chunks placed back to back. */
  function JoinedContent(chunks: seq<Chunk>): string
    decreases |chunks|
  {
    if chunks == [] then [] else chunks[0].content + JoinedContent(chunks[1..])
  }

  /** Chunks whose texts are `texts`, position by position, join to the concatenation of those. */
  lemma {:induction false} JoinedContentIsConcat(chunks: seq<Chunk>, texts: seq<string>)
    requires |chunks| == |texts| && forall i :: 0 <= i < |chunks| ==> chunks[i].content == texts[i]
    ensures JoinedContent(chunks) == Concat(texts)
    decreases |chunks|
  {
    if chunks != [] {
      JoinedContentIsConcat(chunks[1..], texts[1..]);
    }
  }

  /** The texts of a document's chunks, put back together, are its content. */
  lemma ChunksCoverDocument(doc: Document)
    ensures JoinedContent(ChunksOf(doc)) == doc.content
  {
    JoinedContentIsConcat(ChunksOf(doc), Chunks(doc.content, ChunkSize));
    ChunksConcat(doc.content, ChunkSize);
  }

  /** Once an embedding has failed, later chunks do not change the error. */
  lemma {:induction false} EmbedAllStopsAtFailure(embed: string -> EmbedReply, a: seq<Chunk>, b: seq<Chunk>)
    requires EmbedAll(embed, a).Err?
    ensures EmbedAll(embed, a + b) == EmbedAll(embed, a)
    decreases |b|
  {
    if b == [] {
      assert a + b == a;
    } else {
      var b' := b[..|b| - 1];
      assert (a + b)[..|a + b| - 1] == a + b';
      EmbedAllStopsAtFailure(embed, a, b');
    }
  }

  /** One more chunk whose embedding succeeds extends the embeddings by it. */
  lemma EmbedAllSnoc(embed: string -> EmbedReply, a: seq<Chunk>, c: Chunk)
    requires EmbedAll(embed, a).Ok? && EmbeddingOf(embed(c.content)).Ok?
    ensures EmbedAll(embed, a + [c]) == Ok(EmbedAll(embed, a).value + [EmbeddingOf(embed(c.content)).value])
  {
    assert (a + [c])[..|a + [c]| - 1] == a;
  }

  /** One more chunk whose embedding fails ends the build with that error. */
  lemma EmbedAllSnocFails(embed: string -> EmbedReply, a: seq<Chunk>, c: Chunk)
    requires EmbedAll(embed, a).Ok? && EmbeddingOf(embed(c.content)).Err?
    ensures EmbedAll(embed, a + [c]) == Err(EmbeddingOf(embed(c.content)).message)
  {
    assert (a + [c])[..|a + [c]| - 1] == a;
  }

  /** The chunks of a list are those before document `d`, those of `d`, and those after it. */
  lemma DocumentChunksAround(docs: seq<Document>, d: nat)
    requires d < |docs|
    ensures DocumentChunks(docs) == DocumentChunks(docs[..d]) + ChunksOf(docs[d]) + DocumentChunks(docs[d + 1..])
  {
    assert docs == docs[..d + 1] + docs[d + 1..];
    DocumentChunksConcat(docs[..d + 1], docs[d + 1..]);
    DocumentChunksSnoc(docs, d);
  }

  /** An embedding failing at chunk `c` of document `d` is the error of the whole build. */
  lemma FailureEndsBuild(embed: string -> EmbedReply, docs: seq<Document>, d: nat, c: nat)
    requires d < |docs| && c < |ChunksOf(docs[d])|
    requires EmbedAll(embed, DocumentChunks(docs[..d]) + ChunksOf(docs[d])[..c + 1]).Err?
    ensures EmbedAll(embed, DocumentChunks(docs)) == EmbedAll(embed, DocumentChunks(docs[..d]) + ChunksOf(docs[d])[..c + 1])
  {
    var before, cs, after := DocumentChunks(docs[..d]), ChunksOf(docs[d]), DocumentChunks(docs[d + 1..]);
    DocumentChunksAround(docs, d);
    SplitAfter(before, cs, after, c + 1);
    EmbedAllStopsAtFailure(embed, before + cs[..c + 1], cs[c + 1..] + after);
  }

  /** Extending a prefix of `b` by its next element, after a fixed front `a`. */
  lemma PrefixSnoc<T>(a: seq<T>, b: seq<T>, k: nat)
    requires k < |b|
    ensures a + b[..k] + [b[k]] == a + b[..k + 1]
  {
    assert b[..k + 1] == b[..k] + [b[k]];
  }

  lemma SplitAfter<T>(a: seq<T>, b: seq<T>, c: seq<T>, k: nat)
    requires k <= |b|
    ensures a + b + c == (a + b[..k]) + (b[k..] + c)
  {
    assert b == b[..k] + b[k..];
  }

  /** A document of 1200 characters gives three chunks, of 500, 500 and 200 characters, each
      carrying the document. */
  lemma TwelveHundredCharacters(doc: Document)
    requires |doc.content| == 1200
    ensures var r := DocumentChunks([doc]);
              && |r| == 3 && |r[0].content| == 500 && |r[1].content| == 500 && |r[2].content| == 200
              && r[0].metadata == doc && r[1].metadata == doc && r[2].metadata == doc
  {
    var t := doc.content;
    assert Chunks(t, 500) == [t[..500]] + Chunks(t[500..], 500);
    var t1 := t[500..];
    assert Chunks(t1, 500) == [t1[..500]] + Chunks(t1[500..], 500);
    var t2 := t1[500..];
    assert |t2| == 200 && t2[..200] == t2;
    assert Chunks(t2, 500) == [t2] + Chunks(t2[200..], 500);
    assert Chunks(t2[200..], 500) == [];
    assert [doc][..0] == [];
  }

  // ---------------------------------------------------------------- the chatbot

  class WorkspaceChatbot {
    /** `this.vectorStore`. */
    const store: ChromaVectorStore
    /** The embedding endpoint (`getEmbedding`'s request), as its reply to each text. */
    const embed: string -> EmbedReply
    /** The generation endpoint (`queryLlama`'s request), as its reply to each prompt. */
    const llm: string -> LlmReply
    /** `this.responseConfig.promptTemplates`. */
    const templates: map<string, string>
    /** The fixed text of the classification prompt up to the quoted question. */
    const instructions: string
    /** The number of chunks of the last build, or of the collection found at start-up. */
    var documentsCount: nat

    constructor (server: ChromaServer, embed: string -> EmbedReply, llm: string -> LlmReply)
      ensures fresh(store) && store.server == server && store.collection == None
      ensures this.embed == embed && this.llm == llm
      ensures templates == PromptTemplates && instructions == ClassificationInstructions
      ensures documentsCount == 0
    {
      store := new ChromaVectorStore(server);
      this.embed := embed;
      this.llm := llm;
      templates := PromptTemplates;
      instructions := ClassificationInstructions;
      documentsCount := 0;
    }

    /** The two loops of `embedAndStoreDocuments`: chunks every document and embeds every chunk
        in order, stopping at the first embedding that fails. */
    method EmbedDocuments(documents: seq<Document>) returns (chunksToEmbed: seq<Chunk>, r: Result<seq<Embedding>>)
      ensures r == EmbedAll(embed, DocumentChunks(documents))
      ensures r.Ok? ==> chunksToEmbed == DocumentChunks(documents)
    {
      chunksToEmbed := [];
      var embeddingsToStore: seq<Embedding> := [];
      for d := 0 to |documents|
        invariant chunksToEmbed == DocumentChunks(documents[..d])
        invariant EmbedAll(embed, chunksToEmbed) == Ok(embeddingsToStore)
      {
        var chunks := SplitIntoChunks(documents[d].content, ChunkSize);
        var own := ChunksOf(documents[d]);
        for c := 0 to |chunks|
          invariant chunksToEmbed == DocumentChunks(documents[..d]) + own[..c]
          invariant EmbedAll(embed, chunksToEmbed) == Ok(embeddingsToStore)
        {
          var before := chunksToEmbed;
          assert own[c] == Chunk(chunks[c], documents[d]);
          chunksToEmbed := chunksToEmbed + [own[c]];
          PrefixSnoc(DocumentChunks(documents[..d]), own, c);
          var e := EmbeddingOf(embed(chunks[c]));
          if e.Err? {
            EmbedAllSnocFails(embed, before, own[c]);
            FailureEndsBuild(embed, documents, d, c);
            r := Err(e.message);
            return;
          }
          EmbedAllSnoc(embed, before, own[c]);
          embeddingsToStore := embeddingsToStore + [e.value];
        }
        assert own[..|chunks|] == own;
        DocumentChunksSnoc(documents, d);
      }
      assert documents[..|documents|] == documents;
      r := Ok(embeddingsToStore);
    }

    /** `embedAndStoreDocuments(documents)`: chunks every document, embeds every chunk, stores the
        batch, and counts the chunks. The first failing embedding ends it with that error, before
        any request to the store. */
    method EmbedAndStoreDocuments(documents: seq<Document>, now: nat -> nat) returns (o: Outcome)
      modifies this, store.server
      ensures store.server.live == old(store.server.live) && store.server.nextHandle == old(store.server.nextHandle)
      ensures var chunks := DocumentChunks(documents);
              var e := EmbedAll(embed, chunks);
              && (e.Err? ==> o == Fail(e.message) && store.server.sent == old(store.server.sent))
              && (e.Ok? && store.collection.Some? ==> store.server.sent == old(store.server.sent) + 1)
              && (e.Ok? && store.collection.Some? && !store.server.up(old(store.server.sent)) ==> o == Fail(FetchFailed))
              && (o.Pass? <==> e.Ok? && store.collection.Some? && store.server.up(old(store.server.sent))
                               && store.server.live == store.collection
                               && FreshIds(old(store.server.records), BatchIds(now, |chunks|)))
              && (o.Pass? ==> store.server.records == old(store.server.records) + Indexed(embed, documents, now).value
                              && documentsCount == |chunks|)
              && (o.Fail? ==> store.server.records == old(store.server.records)
                              && documentsCount == old(documentsCount))
    {
      var chunksToEmbed, embedded := EmbedDocuments(documents);
      if embedded.Err? {
        return Fail(embedded.message);
      }
      o := store.AddDocuments(chunksToEmbed, embedded.value, now);
      if o.Pass? {
        documentsCount := |chunksToEmbed|;
      }
    }

    /** `initialize()`: binds the collection; builds only when it is empty, and otherwise takes
        its size, counted again, as the count. An empty or absent document list ends it quietly;
        any error is passed on. */
    method Initialize(file: DocumentsFile, now: nat -> nat) returns (o: Outcome)
      modifies this, store, store.server
      ensures o == InitializeOutcome(store.server.up, old(store.server.sent), old(store.server.live),
                                     old(store.server.records), file, embed)
      ensures var s := old(store.server.sent);
              && (!store.server.up(s) ==>
                    && store.server.sent == s + 1 && documentsCount == old(documentsCount)
                    && store.collection == old(store.collection) && store.server.live == old(store.server.live)
                    && store.server.records == old(store.server.records))
              && (store.server.up(s) ==> store.server.live.Some? && store.collection == store.server.live)
              && (store.server.up(s) && !store.server.up(s + 1) ==>
                    && store.server.sent == s + 2 && documentsCount == old(documentsCount)
                    && store.server.records == (if old(store.server.live).Some? then old(store.server.records) else []))
              && (store.server.up(s) && store.server.up(s + 1) && old(store.server.live).Some?
                  && |old(store.server.records)| > 0 ==>
                    && store.server.sent == s + 3
                    && store.server.live == old(store.server.live) && store.server.records == old(store.server.records)
                    && documentsCount == (if store.server.up(s + 2) then |old(store.server.records)| else old(documentsCount)))
              && (store.server.up(s) && store.server.up(s + 1)
                  && !(old(store.server.live).Some? && |old(store.server.records)| > 0) ==>
                    BuiltFrom(file, now, old(documentsCount), s + 2))
    {
      var existing := store.Initialize();
      if existing.Err? {
        return Fail(existing.message);
      }
      if existing.value == 0 {
        if file.Unreadable? {
          return Fail(file.error);
        }
        var docs := file.documents;
        if docs.None? || docs.value == [] {
          return Pass;
        }
        o := EmbedAndStoreDocuments(docs.value, now);
        if o.Pass? {
          assert [] + Indexed(embed, docs.value, now).value == Indexed(embed, docs.value, now).value;
        }
      } else {
        var count := store.server.Count(store.collection.value);
        if count.Err? {
          return Fail(count.message);
        }
        documentsCount := count.value;
        o := Pass;
      }
    }

    /** The state after building from `file` into an empty collection, the batch being stored by
        request number `request`: the records of the build when that request succeeds, and
        otherwise an empty collection and the count as it was. No request is sent when there is
        nothing to build or an embedding fails. */
    predicate BuiltFrom(file: DocumentsFile, now: nat -> nat, oldCount: nat, request: nat)
      reads this, store, store.server
    {
      match ToBuild(file)
      case None => store.server.records == [] && documentsCount == oldCount && store.server.sent == request
      case Some(docs) =>
        match Indexed(embed, docs, now)
        case None => store.server.records == [] && documentsCount == oldCount && store.server.sent == request
        case Some(recs) =>
          && store.server.sent == request + 1
          && if store.server.up(request) then store.server.records == recs && documentsCount == |DocumentChunks(docs)|
             else store.server.records == [] && documentsCount == oldCount
    }

    /** `reindexDocuments()`: drops the collection, binds a fresh one and builds it from the file.
        It never throws: every failure ends it where it happened. When binding fails after the
        drop, the adapter keeps the handle of the dropped collection and the count of the last
        build. */
    method ReindexDocuments(file: DocumentsFile, now: nat -> nat)
      modifies this, store, store.server
      ensures var s := old(store.server.sent);
              && (!store.server.up(s) ==>
                    && store.server.sent == s + 1 && documentsCount == old(documentsCount)
                    && store.collection == old(store.collection) && store.server.live == old(store.server.live)
                    && store.server.records == old(store.server.records))
              && (store.server.up(s) && !store.server.up(s + 1) ==>
                    && store.server.sent == s + 2 && store.server.live == None
                    && store.collection == old(store.collection) && documentsCount == old(documentsCount)
                    && store.server.records == (if old(store.server.live).Some? then [] else old(store.server.records)))
              && (store.server.up(s) && store.server.up(s + 1) ==>
                    store.server.live == Some(old(store.server.nextHandle)) && store.collection == store.server.live)
              && (store.server.up(s) && store.server.up(s + 1) && !store.server.up(s + 2) ==>
                    store.server.sent == s + 3 && store.server.records == [] && documentsCount == old(documentsCount))
              && (store.server.up(s) && store.server.up(s + 1) && store.server.up(s + 2) ==>
                    BuiltFrom(file, now, old(documentsCount), s + 3))
    {
      var deleted := store.DeleteCollection();
      if deleted.Fail? {
        return;
      }
      var bound := store.Initialize();
      if bound.Err? {
        return;
      }
      if file.Unreadable? {
        return;
      }
      var docs := file.documents;
      if docs.None? || docs.value == [] {
        return;
      }
      var o := EmbedAndStoreDocuments(docs.value, now);
      if o.Pass? {
        assert [] + Indexed(embed, docs.value, now).value == Indexed(embed, docs.value, now).value;
      }
    }

    /** `searchSimilarDocuments(query, topK)`: the query's embedding, then the store's search. */
    function SearchSimilarDocuments(query: string, topK: nat): (r: Result<seq<SimilarityResult>>)
      reads store, store.server
      ensures EmbeddingOf(embed(query)).Err? ==> r == Err(EmbeddingOf(embed(query)).message)
      ensures r.Ok? <==> EmbeddingOf(embed(query)).Ok? && store.collection.Some? && store.server.Reachable()
                         && store.server.live == store.collection
      ensures r.Ok? ==> |r.value| <= topK
    {
      match EmbeddingOf(embed(query))
      case Err(m) => Err(m)
      case Ok(v) => store.SimilaritySearch(v, topK)
    }

    /** `classifyQueryWithLLM(userQuestion)`: the label parsed from the model's reply to the
        classification prompt. */
    function ClassifyQueryWithLLM(question: string): (name: string)
      ensures LlmText(llm(ClassificationPrompt(instructions, question))).Err? ==> name == OffTopic
      ensures HasNoLowerAscii(name)
    {
      ParseLabel(LlmText(llm(ClassificationPrompt(instructions, question))))
    }

    /** `generateResponse(userQuestion)`: the business labels are answered from the index, a
        greeting and anything else get fixed replies, and every error becomes the apology. */
    function GenerateResponse(question: string): (answer: string)
      reads store, store.server
      ensures RouteOf(ClassifyQueryWithLLM(question)) == Greet ==> answer == GreetingReply
      ensures RouteOf(ClassifyQueryWithLLM(question)) == Refuse ==> answer == RefusalReply
      ensures RouteOf(ClassifyQueryWithLLM(question)) == Retrieve ==>
                answer == Apology || (SearchSimilarDocuments(question, RetrievalTopK).Ok? && '*' !in answer)
    {
      match RouteOf(ClassifyQueryWithLLM(question))
      case Greet => GreetingReply
      case Refuse => RefusalReply
      case Retrieve =>
        match SearchSimilarDocuments(question, RetrievalTopK)
        case Err(_) => Apology
        case Ok(results) =>
          match BuildPrompt(templates, question, RelevantContext(results))
          case Err(_) => Apology
          case Ok(prompt) =>
            match LlmText(llm(prompt))
            case Err(_) => Apology
            case Ok(text) => CleanResponse(text)
    }
  }

  // ---------------------------------------------------------------- properties of an answer

  /** A failed classification call is refused without retrieval. */
  lemma ClassificationFailureRefuses(bot: WorkspaceChatbot, question: string)
    requires LlmText(bot.llm(ClassificationPrompt(bot.instructions, question))).Err?
    ensures bot.GenerateResponse(question) == RefusalReply
  {
    FailureIsRefused(LlmText(bot.llm(ClassificationPrompt(bot.instructions, question))).message);
  }

  /** Without a no-context template, a business question whose retrieved results all fall below
      the floor ends in the apology. */
  lemma NothingRelevantApologises(bot: WorkspaceChatbot, question: string)
    requires FallbackName !in bot.templates
    requires RouteOf(bot.ClassifyQueryWithLLM(question)) == Retrieve
    requires bot.SearchSimilarDocuments(question, RetrievalTopK).Ok?
    requires var rs := bot.SearchSimilarDocuments(question, RetrievalTopK).value;
             forall i :: 0 <= i < |rs| ==> rs[i].similarity < RelevanceFloor
    ensures bot.GenerateResponse(question) == Apology
  {
    var rs := bot.SearchSimilarDocuments(question, RetrievalTopK).value;
    assert RelevantContext(rs) == "";
    BlankContextFails(bot.templates, question, "");
  }

  /** A business question with grounded context sends the grounded template, with the context
      and the question in place, to the model, and returns its cleaned reply. */
  lemma GroundedAnswer(bot: WorkspaceChatbot, question: string, head: string, middle: string, tail: string)
    requires GroundedName in bot.templates
    requires bot.templates[GroundedName] == head + ContextPlaceholder + middle + QuestionPlaceholder + tail
    requires '{' !in head && '{' !in middle
    requires RouteOf(bot.ClassifyQueryWithLLM(question)) == Retrieve
    requires bot.SearchSimilarDocuments(question, RetrievalTopK).Ok?
    requires var context := RelevantContext(bot.SearchSimilarDocuments(question, RetrievalTopK).value);
             !AllSpaces(context) && '{' !in context && '$' !in context && '$' !in question
    ensures var context := RelevantContext(bot.SearchSimilarDocuments(question, RetrievalTopK).value);
            var reply := LlmText(bot.llm(head + context + middle + question + tail));
            bot.GenerateResponse(question) == if reply.Ok? then CleanResponse(reply.value) else Apology
  {
    var context := RelevantContext(bot.SearchSimilarDocuments(question, RetrievalTopK).value);
    GroundedPrompt(bot.templates, head, middle, tail, question, context);
  }
}
