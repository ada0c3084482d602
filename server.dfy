/** The `ChatbotServer` of server.js: the readiness report of `/status`, the input check and
    source citations of `/chat`, start-up, and the rebuild on a change of the document file. */
module Server {
  import opened Wrappers
  import opened VectorStore
  import opened Pipeline
  import opened Chatbot

  const AskForQuestion: string := "질문을 입력해주세요."
  const InternalError: string := "죄송합니다. 서버 내부 오류가 발생했습니다."

  /** How many documents `/chat` cites. */
  const SourceCount: nat := 2

  const DefaultCategory: string := "문서"
  const DefaultSource: string := "unknown"
  const DefaultTitle: string := "제목 없음"

  /** One entry of the `sources` list of a `/chat` reply. */
  datatype Source = Source(category: string, source: string, title: string)

  /** A `/chat` reply: the answer with its sources, or an error status with its fixed answer
      (the body also carries `error: true`). */
  datatype ChatReply = Answered(answer: string, sources: seq<Source>) | Rejected(status: nat, answer: string)

  /** The `/status` body: `status`, `components.llm`, `components.vectorStore` and
      `data.documentsCount`. */
  datatype Status = Status(status: string, llm: bool, vectorStore: bool, documentsCount: nat)

  /** JavaScript's `value || fallback` on an optional string: absent and empty are both falsy. */
  function OrDefault(value: Option<string>, fallback: string): (r: string)
    ensures fallback != "" ==> r != ""
    ensures value.Some? && value.value != "" ==> r == value.value
    ensures (value.None? || value.value == "") ==> r == fallback
  {
    if value.Some? && value.value != "" then value.value else fallback
  }

  /** The citation of one retrieved document: its metadata fields, each with its default. */
  function SourceOf(doc: SimilarityResult): (s: Source)
    ensures s.category != "" && s.source != "" && s.title != ""
    ensures s.category == OrDefault(doc.metadata.category, DefaultCategory)
    ensures s.source == OrDefault(doc.metadata.source, DefaultSource)
    ensures s.title == OrDefault(doc.metadata.title, DefaultTitle)
  {
    Source(OrDefault(doc.metadata.category, DefaultCategory),
           OrDefault(doc.metadata.source, DefaultSource),
           OrDefault(doc.metadata.title, DefaultTitle))
  }

  /** `docs.map(...)`: one citation per retrieved document, in order. */
  function Sources(docs: seq<SimilarityResult>): (r: seq<Source>)
    ensures |r| == |docs|
    ensures forall i :: 0 <= i < |docs| ==> r[i] == SourceOf(docs[i])
  {
    seq(|docs|, i requires 0 <= i < |docs| => SourceOf(docs[i]))
  }

  class ChatbotServer {
    /** `this.chatbot`: null until `start` creates it. */
    var chatbot: WorkspaceChatbot?
    var ragInitialized: bool
    /** Whether `watchDocumentChanges` has been set up, which `start` does after a successful
        initialisation. */
    var watching: bool
    /** Whether `app.listen` has been called: `/status` and `/chat` are served only from then on,
        which `start` does only after a successful initialisation. */
    var listening: bool

    constructor ()
      ensures chatbot == null && !ragInitialized && !watching && !listening
    {
      chatbot := null;
      ragInitialized := false;
      watching := false;
      listening := false;
    }

    /** The objects the handlers read. */
    function Footprint(): (r: set<object>)
      reads this
      ensures chatbot != null ==> chatbot in r && chatbot.store in r && chatbot.store.server in r
    {
      if chatbot == null then {} else {chatbot, chatbot.store, chatbot.store.server}
    }

    /** `handleStatus`: online exactly when initialised; the store counts as ready only when
        something is indexed. Reading `documentsCount` of a missing chatbot throws. */
    function HandleStatus(): (r: Result<Status>)
      reads this, Footprint()
      ensures r.Err? <==> chatbot == null
      ensures r.Ok? ==> (r.value.status == "online" <==> ragInitialized)
      ensures r.Ok? ==> (r.value.status == "initializing" <==> !ragInitialized)
      ensures r.Ok? ==> r.value.llm == ragInitialized
      ensures r.Ok? ==> (r.value.vectorStore <==> ragInitialized && chatbot.documentsCount > 0)
      ensures r.Ok? ==> r.value.documentsCount == chatbot.documentsCount
    {
      if chatbot == null then Err("TypeError: Cannot read properties of null (reading 'documentsCount')")
      else
        Ok(Status(if ragInitialized then "online" else "initializing",
                  ragInitialized,
                  ragInitialized && chatbot.documentsCount > 0,
                  chatbot.documentsCount))
    }

    /** `handleChat` for the body's `question`: `None` stands for a missing field. An empty
        question is turned away before the chatbot is used; a failed retrieval of the sources,
        or a missing chatbot, is the internal error. */
    function HandleChat(question: Option<string>): (r: ChatReply)
      reads this, Footprint()
      ensures (question.None? || question.value == "") ==> r == Rejected(400, AskForQuestion)
      ensures question.Some? && question.value != "" && chatbot == null ==> r == Rejected(500, InternalError)
      ensures r.Rejected? ==> r.status == 400 || r == Rejected(500, InternalError)
      ensures question.Some? && question.value != "" && chatbot != null ==>
                var docs := chatbot.SearchSimilarDocuments(question.value, SourceCount);
                && (r.Answered? <==> docs.Ok?)
                && (r.Answered? ==> r.answer == chatbot.GenerateResponse(question.value)
                                    && |r.sources| == |docs.value| <= SourceCount
                                    && forall i :: 0 <= i < |r.sources| ==> r.sources[i] == SourceOf(docs.value[i]))
    {
      if question.None? || question.value == "" then Rejected(400, AskForQuestion)
      else if chatbot == null then Rejected(500, InternalError)
      else
        match chatbot.SearchSimilarDocuments(question.value, SourceCount)
        case Err(_) => Rejected(500, InternalError)
        case Ok(docs) => Answered(chatbot.GenerateResponse(question.value), Sources(docs))
    }

    /** `start()`: creates the chatbot against the given backends, initialises it, and sets
        `ragInitialized` by its outcome; the file watcher starts only after success. */
    method Start(server: ChromaServer, embed: string -> EmbedReply, llm: string -> LlmReply,
                 file: DocumentsFile, now: nat -> nat)
      modifies this, server
      ensures chatbot != null && fresh(chatbot) && fresh(chatbot.store) && chatbot.store.server == server
      ensures chatbot.embed == embed && chatbot.llm == llm
      ensures ragInitialized <==>
                InitializeOutcome(server.up, old(server.sent), old(server.live), old(server.records), file, embed).Pass?
      ensures watching <==> old(watching) || ragInitialized
      ensures listening <==> old(listening) || ragInitialized
      ensures ragInitialized ==> server.live.Some? && chatbot.store.collection == server.live
      ensures ragInitialized ==>
                HandleStatus() == Ok(Status("online", true, chatbot.documentsCount > 0, chatbot.documentsCount))
      ensures !server.up(old(server.sent)) ==> !ragInitialized && server.records == old(server.records)
      ensures var s := old(server.sent);
              && (!server.up(s) ==>
                    && server.sent == s + 1 && chatbot.documentsCount == 0 && chatbot.store.collection == None
                    && server.live == old(server.live))
              && (server.up(s) ==> server.live.Some? && chatbot.store.collection == server.live)
              && (server.up(s) && !server.up(s + 1) ==>
                    && server.sent == s + 2 && chatbot.documentsCount == 0
                    && server.records == (if old(server.live).Some? then old(server.records) else []))
              && (server.up(s) && server.up(s + 1) && old(server.live).Some? && |old(server.records)| > 0 ==>
                    && server.sent == s + 3
                    && server.live == old(server.live) && server.records == old(server.records)
                    && chatbot.documentsCount == (if server.up(s + 2) then |old(server.records)| else 0))
              && (server.up(s) && server.up(s + 1) && !(old(server.live).Some? && |old(server.records)| > 0) ==>
                    chatbot.BuiltFrom(file, now, 0, s + 2))
    {
      chatbot := new WorkspaceChatbot(server, embed, llm);
      var o := chatbot.Initialize(file, now);
      if o.Pass? {
        ragInitialized := true;
        listening := true;
        watching := true;
      } else {
        ragInitialized := false;
      }
    }

    /** The watcher's `change` event: rebuilds the index when there is a chatbot. No event
        arrives before the watcher is set up. */
    method OnDocumentsChanged(file: DocumentsFile, now: nat -> nat)
      modifies Footprint()
      ensures chatbot == old(chatbot) && ragInitialized == old(ragInitialized) && watching == old(watching)
      ensures listening == old(listening)
      ensures watching && chatbot != null ==>
                var srv, s := chatbot.store.server, old(chatbot.store.server.sent);
                && (!srv.up(s) ==>
                      && chatbot.documentsCount == old(chatbot.documentsCount)
                      && chatbot.store.collection == old(chatbot.store.collection)
                      && srv.live == old(srv.live) && srv.records == old(srv.records))
                && (srv.up(s) && !srv.up(s + 1) ==>
                      && srv.live == None && chatbot.store.collection == old(chatbot.store.collection)
                      && chatbot.documentsCount == old(chatbot.documentsCount))
                && (srv.up(s) && srv.up(s + 1) ==> srv.live.Some? && chatbot.store.collection == srv.live)
                && (srv.up(s) && srv.up(s + 1) && !srv.up(s + 2) ==>
                      srv.records == [] && chatbot.documentsCount == old(chatbot.documentsCount))
                && (srv.up(s) && srv.up(s + 1) && srv.up(s + 2) ==>
                      chatbot.BuiltFrom(file, now, old(chatbot.documentsCount), s + 3))
      ensures !watching && chatbot != null ==>
                && chatbot.documentsCount == old(chatbot.documentsCount)
                && chatbot.store.server.records == old(chatbot.store.server.records)
                && chatbot.store.server.sent == old(chatbot.store.server.sent)
    {
      if watching && chatbot != null {
        chatbot.ReindexDocuments(file, now);
      }
    }
  }

  /** A greeting is still answered with retrieved sources: the citation list is computed from the
      index whatever the intent. */
  lemma GreetingStillCitesSources(s: ChatbotServer, question: string)
    requires s.chatbot != null && question != ""
    requires RouteOf(s.chatbot.ClassifyQueryWithLLM(question)) == Greet
    requires s.chatbot.SearchSimilarDocuments(question, SourceCount).Ok?
    ensures s.HandleChat(Some(question)) ==
              Answered(GreetingReply, Sources(s.chatbot.SearchSimilarDocuments(question, SourceCount).value))
  {
  }

  /** With no live collection, as after a rebuild whose binding failed once the old collection was
      dropped, every question is the internal error, while `/status` still reports the count of
      the last build. */
  lemma NoCollectionFailsChat(s: ChatbotServer, question: string)
    requires s.chatbot != null && s.chatbot.store.server.live.None? && question != ""
    ensures s.HandleChat(Some(question)) == Rejected(500, InternalError)
    ensures s.HandleStatus().Ok? && s.HandleStatus().value.documentsCount == s.chatbot.documentsCount
    ensures s.HandleStatus().value.vectorStore <==> s.ragInitialized && s.chatbot.documentsCount > 0
  {
  }
}
