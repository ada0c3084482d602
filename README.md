# MyWorkspace RAG chatbot — a verified model

This project models the server side of the MyWorkspace customer-service chatbot. The chatbot
answers questions about a shared-office business with retrieval-augmented generation.

- **`workspace-chatbot.js`** holds two classes.
  - `ChromaVectorStore` is a thin adapter over a ChromaDB collection.
  - `WorkspaceChatbot` does four things:
    - it cuts the documents of `documents.json` into 500-character chunks;
    - it embeds each chunk through Ollama and stores the batch;
    - it rebuilds the index when the file changes;
    - it answers a question by asking the language model for an intent label, then either greets, refuses, or retrieves context, fills the prompt template and cleans the model's answer.
- **`config.js`** holds `ResponseConfig`: the keyword tables, the prompt templates and the keyword classifier `analyzeQueryType`.
- **`server.js`** holds `ChatbotServer` and the decision logic of its handlers:
  - the readiness report of `/status`;
  - the input check and source citations of `/chat`;
  - the `ragInitialized` flag set by start-up;
  - the rebuild on a change of the document file.

The remote services are parameters of the model:
- **Ollama's embedding and generation endpoints** are functions from a text to a reply that may fail or lack its field.
- **The ChromaDB server** is a class (`VectorStore.ChromaServer`). It holds the handle of the live collection, the collection's records in insertion order, and an abstract nearest-neighbour ranking. Requests to it are numbered in the order they are sent, and a fixed schedule says which of them reach the server. So one request can fail after an earlier one succeeded, for example the re-binding after a successful delete during a rebuild.
- **`Date.now()`** is a function passed in.
- **The contents of `documents.json`** are a value (`Chatbot.DocumentsFile`): unreadable, or parsed with a `documents` field that may be absent.

JavaScript's string operations are modelled with their own semantics in `JsText`:
- `trim` and `\s`, with the ECMAScript white-space and line-terminator sets;
- `length` in UTF-16 code units;
- `includes`;
- `replace` with a string pattern, which replaces only the first occurrence and expands `$` patterns in the replacement;
- `join`.

Modules, one per file:
- `Wrappers`: `Option`, `Result` and `Outcome`.
- `JsText`: the JavaScript string operations above.
- `Config`: config.js.
- `Chunker`: `splitIntoChunks`.
- `VectorStore`: the ChromaDB server and `ChromaVectorStore`.
- `Pipeline`: the pure steps of the answer path.
- `Chatbot`: the `WorkspaceChatbot` class.
- `Server`: `ChatbotServer`.

Two behaviours of the code that its own naming does not suggest are modelled as the code behaves:
1. **Blank context.** For a blank context `buildPrompt` selects the template `noContextFallback` (workspace-chatbot.js:249-251), but config.js:26-49 defines only `myworkspace`. Calling `.replace` on `undefined` throws, and `generateResponse` turns that into the generic apology. The model does this: `Pipeline.BuildPrompt` fails when the template is missing, and `Chatbot.NothingRelevantApologises` proves the apology.
2. **Result order.** Nothing sorts the search results by similarity. `similaritySearch` maps them in the order the backend returns them (workspace-chatbot.js:68-77), and `generateResponse` only filters them (workspace-chatbot.js:223-226). The model keeps that order.

## Model

| member | source | states |
|---|---|---|
| JsText.Trim | workspace-chatbot.js:193 | the trimmed text starts and ends with a non-white-space character (or is empty) |
| JsText.TrimIsSlice | workspace-chatbot.js:271 | `trim` removes only white space, and only from the two ends: the result is a slice of the input with white space on both sides of it |
| JsText.TrimBlank | workspace-chatbot.js:249 | `context.trim().length === 0` exactly when the context is all white space |
| JsText.TrimIdempotent | workspace-chatbot.js:275 | trimming twice (the trimmed reply is trimmed again by `cleanResponse`) is trimming once |
| JsText.Utf16Length | config.js:55 | `query.length` counts UTF-16 code units: between the number of code points and twice that, equal when all are in the basic plane |
| JsText.AstralLength | workspace-chatbot.js:297 | a text of characters beyond the basic plane has two UTF-16 units per character |
| JsText.LowerCaseOfLower | config.js:53 | lower-casing leaves a text without upper-case letters unchanged |
| JsText.UpperCaseKeepsSpaces | workspace-chatbot.js:193 | upper-casing keeps the length and the white space, and leaves no lower-case letter |
| JsText.UpperCaseOfUpper | workspace-chatbot.js:193 | upper-casing leaves a text without lower-case letters unchanged |
| JsText.Remove | workspace-chatbot.js:276 | a global delete leaves none of the deleted characters and never lengthens the text |
| JsText.RemoveNothing | config.js:53 | deleting characters that do not occur changes nothing |
| JsText.RemoveIdempotent | workspace-chatbot.js:276 | deleting the same characters twice is deleting them once |
| JsText.IndexOf | workspace-chatbot.js:256 | the position found is the first occurrence of the pattern; none is found exactly when it does not occur |
| JsText.IndexOfIsFirst | workspace-chatbot.js:256 | the first occurrence is what is found |
| JsText.IncludesConcat | config.js:61 | a text contains any pattern placed inside it |
| JsText.FirstAfterClean | workspace-chatbot.js:256 | a pattern placed after text that lacks its first character occurs first there |
| JsText.SubstitutionLiteral | workspace-chatbot.js:256 | a replacement without `$` is inserted literally |
| JsText.Replace | workspace-chatbot.js:256 | replacing a pattern that does not occur returns the text unchanged |
| JsText.ReplaceFirst | workspace-chatbot.js:256 | a string-pattern `replace` changes only the first occurrence, leaving the text before and after it as it was |
| JsText.ReplaceAfterClean | workspace-chatbot.js:256 | a placeholder after text that lacks its first character is the one replaced |
| JsText.ReplaceAtStart | workspace-chatbot.js:193 | a pattern at the start of the text is the one replaced |
| JsText.DollarPatternExample | workspace-chatbot.js:256 | `$$` in a replacement inserts a single `$` |
| JsText.JoinIsEmpty | workspace-chatbot.js:226 | a join with a non-empty separator is empty exactly when there are no parts, or a single empty one |
| JsText.DecimalRoundTrip | workspace-chatbot.js:49 | the decimal text of a number in a chunk id reads back as that number |
| JsText.DecimalStringInjective | workspace-chatbot.js:49 | different numbers have different decimal texts |
| Config.HeadHasNoBrace | config.js:27-30 | the grounded template has no `{` before `{context}` |
| Config.TemplateShape | config.js:27-34 | no `{` comes before `{context}`, nor between `{context}` and `{question}` |
| Config.TemplateTable | config.js:26-49 | the template table has `myworkspace` and no `noContextFallback` |
| Config.AnyIncluded | config.js:61 | `keys.some(k => s.includes(k))` holds exactly when some keyword is a substring |
| Config.AnalyzeQueryType | config.js:52-75 | first match wins, in the order greeting (a greeting word in the normalised query, and fewer than 10 UTF-16 units), some strictly-irrelevant word, some core word; a query matching none throws, so `help` and `general_question` are never returned |
| Config.NormalisedQueriesAgree | config.js:53-55 | queries with the same lower-cased, space-free form and the same side of the length bound are classified alike |
| Config.HelpWordIsRefused | config.js:11 | a non-greeting query containing a help word (`무엇`, `어떤`, …) is strictly irrelevant |
| Config.Normalize | config.js:53 | the normal form has no white space and no ASCII capital, and is no longer than the query |
| Config.NormalizeIdempotent | config.js:53 | normalising a normal form changes nothing |
| Config.SpacedPersonalWordsNeverMatch | config.js:10 | `너 누구야`, `넌 누구니` and `이름이 뭐야` are written with a space and the normal form has none, so no query ever contains them |
| Config.NormalizePlain | config.js:53 | normalising a query without capitals or white space changes nothing |
| Config.ParkingQuestionNormalized | config.js:53 | the normal form of a sample parking question, split at its keywords |
| Config.ParkingQuestionIsIrrelevant | config.js:60-63 | a question about parking that contains `가능` is strictly irrelevant, although `주차` is a core word |
| Config.FlatIrrelevant | config.js:6-13 | the flattened irrelevant words are the six tables in order, help words included |
| Config.FlatCore | config.js:15-23 | the flattened core words are the seven tables in order |
| Config.NonEmptyIrrelevantWords | config.js:6-13 | no irrelevant keyword is empty |
| Config.NonEmptyCoreWords | config.js:15-24 | no core or greeting keyword is empty |
| Config.NoEmptyKeyword | config.js:6-24 | no keyword of any flattened table is empty |
| Config.EmptyMentionsNothing | config.js:61 | an empty query contains no keyword |
| Config.EmptyQueryThrows | config.js:70 | an empty query throws at `this.helpKeywords.some` |
| Config.AnalyzeQueryTypeIntended | config.js:52-75 | with `helpKeywords` as its own table: greeting, then irrelevant, then core, then help, and otherwise a general question, each exactly when the earlier ones fail |
| Config.IrrelevantSplitsIntoHelp | config.js:6-13 | a query mentions some irrelevant word exactly when it mentions an intended-irrelevant word or a help word |
| Config.IntendedAgreesWithoutHelpWords | config.js:60-68 | without help words, the corrected classifier agrees with the code as written wherever that one returns |
| Config.EmptyQueryIsGeneralWhenIntended | config.js:70-74 | the corrected classifier files an empty query as a general question |
| Chunker.SplitIntoChunks | workspace-chatbot.js:295-301 | the loop returns the windows of `chunkSize` characters from the start of the text; characters are code points, which are the source's UTF-16 units for text in the Basic Multilingual Plane |
| Chunker.ChunksConcat | workspace-chatbot.js:297-298 | the chunks put back together are the text |
| Chunker.ChunkSizes | workspace-chatbot.js:297-298 | every chunk but the last has exactly `n` code points, and the last between 1 and `n` |
| Chunker.ChunkCount | workspace-chatbot.js:297 | the number of chunks c satisfies (c - 1)·n < length ≤ c·n, that is c = ceil(length / n), the length counted in code points |
| Chunker.ChunksEmpty | workspace-chatbot.js:297 | there are no chunks exactly when the text is empty |
| Chunker.ChunksKeepCharacters | workspace-chatbot.js:298 | every character of a chunk is a character of the text |
| Chunker.BmpChunksInCodeUnits | workspace-chatbot.js:297-298 | for text in the Basic Multilingual Plane, each chunk's UTF-16 length is its length, and there are ceil(UTF-16 length / n) chunks, as JavaScript counts them |
| Chunker.AstralTextIsOneChunk | workspace-chatbot.js:297-298 | beyond that plane the counts part: 300 emoji are 600 UTF-16 units, two chunks in the source, one in the model |
| VectorStore.MissingCollectionMessages | workspace-chatbot.js:37 | the server's message for a missing collection contains `does not exist`, and a network failure's does not |
| VectorStore.Hits | workspace-chatbot.js:61-64 | the backend returns at most `nResults` neighbours, all taken from its ranking of stored items |
| VectorStore.ChromaServer.GetOrCreateCollection | workspace-chatbot.js:20-23 | one request: returns the existing collection, or creates an empty one under a new handle; when the request does not reach the server, fails with the network error and changes nothing |
| VectorStore.ChromaServer.DeleteCollection | workspace-chatbot.js:34 | one request: drops the collection and its records; a missing collection is an error saying `does not exist`; an unreached server changes nothing |
| VectorStore.ChromaServer.Count | workspace-chatbot.js:25 | one request: the number of records of the live collection, or the network error |
| VectorStore.ChromaServer.Add | workspace-chatbot.js:55 | one request: appends one record per id exactly when it reaches the server, the arrays are aligned and the ids are new and distinct; otherwise nothing changes |
| VectorStore.ChromaServer.Query | workspace-chatbot.js:61-64 | one aligned row of at most `nResults` hits, each one stored record's id, text and metadata, when the next request reaches the server |
| VectorStore.FromReply | workspace-chatbot.js:66-77 | no rows give `[]`; otherwise one result per returned id, in backend order, with that row's text and metadata, and similarity `1 - distance` |
| VectorStore.ChunkId | workspace-chatbot.js:49 | an id starts with `doc_chunk_` and what follows its last `_` is the decimal chunk index |
| VectorStore.ChunkIdsDiffer | workspace-chatbot.js:49 | chunk ids with different indexes differ, whatever the timestamps |
| VectorStore.BatchIds | workspace-chatbot.js:49 | one id per chunk, all distinct within the batch |
| VectorStore.ChromaVectorStore.constructor | workspace-chatbot.js:12-16 | the adapter starts with no collection |
| VectorStore.ChromaVectorStore.Initialize | workspace-chatbot.js:18-30 | two requests: a failed binding rethrows and changes nothing; after a successful one the handle is bound to the live collection, and the size is returned exactly when the count request succeeds |
| VectorStore.ChromaVectorStore.DeleteCollection | workspace-chatbot.js:32-44 | succeeds exactly when its request reaches the server, because a missing collection is tolerated; the collection is then gone, its records dropped when it existed and untouched when it did not; a failed request changes nothing |
| VectorStore.ChromaVectorStore.AddDocuments | workspace-chatbot.js:46-56 | throws without a collection, sending nothing; otherwise one request, which on success appends exactly the chunk records under the batch's ids; on failure changes nothing |
| VectorStore.ChromaVectorStore.SimilaritySearch | workspace-chatbot.js:58-78 | throws without a collection; otherwise at most `topK` results, each a stored chunk's text and metadata |
| VectorStore.ChunkRecords | workspace-chatbot.js:49-55 | one record per chunk, holding its text and its document as metadata |
| Pipeline.EmbeddingOf | workspace-chatbot.js:280-293 | the embedding exactly when the reply has one; a body without it is the "no valid embedding" error |
| Pipeline.LlmText | workspace-chatbot.js:264-272 | the trimmed `response` field exactly when the reply has one |
| Pipeline.ClassificationPrompt | workspace-chatbot.js:164-184 | the question appears verbatim between the fixed instructions and the closing `카테고리:` lines |
| Pipeline.ParseLabel | workspace-chatbot.js:193-200 | any failure of the call gives `OFF_TOPIC`; a label never has lower-case letters and is never longer than the reply |
| Pipeline.ParsedLabelIsTrimmed | workspace-chatbot.js:193 | a label neither starts nor ends with white space |
| Pipeline.LabelOfPlainReply | workspace-chatbot.js:193 | a reply that is already a bare upper-case label is that label |
| Pipeline.LabelAfterPrefix | workspace-chatbot.js:193 | a reply `카테고리:` plus white space plus a label gives the label |
| Pipeline.ParseLabelOfText | workspace-chatbot.js:193 | where `카테고리:` first occurs at i, the label is the reply with those five characters at i removed, trimmed and upper-cased; a reply without it is only trimmed and upper-cased |
| Pipeline.RouteOf | workspace-chatbot.js:212-239 | the seven business labels retrieve, `GREETING` greets, and every other string is refused |
| Pipeline.FailureIsRefused | workspace-chatbot.js:197-239 | a failed classification call is refused |
| Pipeline.Kept | workspace-chatbot.js:224 | keeps exactly the results with similarity ≥ 0.4 |
| Pipeline.KeptConcat | workspace-chatbot.js:224 | the filter works piece by piece, so ranked order is kept |
| Pipeline.Contents | workspace-chatbot.js:225 | the texts of the results, in order |
| Pipeline.NothingKept | workspace-chatbot.js:224 | results all below the floor leave nothing |
| Pipeline.RelevantContext | workspace-chatbot.js:223-226 | results all below the floor give an empty context; the context is empty exactly when nothing is kept or a single empty text is |
| Pipeline.TwoRelevant | workspace-chatbot.js:223-226 | two results above the floor followed by ones below it give just those two texts, joined by the separator |
| Pipeline.FloorExample | workspace-chatbot.js:223-226 | of similarities 0.6, 0.5, 0.3, 0.2 and 0.1 only the first two make the context |
| Pipeline.TemplateName | workspace-chatbot.js:249-254 | the no-context template is asked for exactly when the context is all white space, and the grounded one otherwise |
| Pipeline.BuildPrompt | workspace-chatbot.js:247-257 | fails, as `.replace` on `undefined` does, exactly when the chosen template is missing |
| Pipeline.FillTemplate | workspace-chatbot.js:256 | only the first `{context}` and then the first `{question}` are replaced, and the rest of the template is kept |
| Pipeline.BlankContextFails | workspace-chatbot.js:249-256 | without a no-context template, a blank context fails |
| Pipeline.GroundedPrompt | workspace-chatbot.js:252-256 | a non-blank context gets the grounded template with the context and the question in place |
| Pipeline.QuestionPlaceholderInContext | workspace-chatbot.js:256 | a `{question}` inside the retrieved context is the one the second `replace` fills, because it comes first |
| Pipeline.ConfiguredBlankContext | workspace-chatbot.js:249-251 | with the configured table a blank context fails |
| Pipeline.ConfiguredGroundedPrompt | workspace-chatbot.js:252-256 | with the configured table, any other context gives the `myworkspace` template with the context and the question in place |
| Pipeline.CleanResponse | workspace-chatbot.js:274-278 | the cleaned answer has no asterisks and is never longer than the reply |
| Pipeline.CleanWithoutLeadIn | workspace-chatbot.js:275-276 | without a lead-in phrase on the first line, cleaning is trimming and removing asterisks |
| Pipeline.LeadInEnd | workspace-chatbot.js:275 | the lead-in match (anything on the first line, then `안내`, `알려` or `말씀` followed by `드리겠습니다`, an optional full stop and white space) exists exactly when such a phrase starts on the first line; it ends past the last such phrase, then past a full stop if one follows, then past all the white space after that |
| Pipeline.StopAndSpacesFrom | workspace-chatbot.js:275 | the end of `\.?\s*` from a position: past an optional full stop and the white space after it, up to the next other character |
| Pipeline.CleanAfterLeadIn | workspace-chatbot.js:275-276 | when the last lead-in phrase of the first line starts at p and `\.?\s*` after it ends at e, the answer is the reply from e on, trimmed, without asterisks |
| Pipeline.CleanIsIdentityOnPlainText | workspace-chatbot.js:274-278 | a trimmed answer without asterisks or lead-in is left as it is |
| Chatbot.ToBuild | workspace-chatbot.js:102-107 | documents are built only when the field is present and the list is non-empty |
| Chatbot.ChunksOf | workspace-chatbot.js:149-152 | one chunk per window of the document, each carrying the whole document as metadata |
| Chatbot.DocumentChunks | workspace-chatbot.js:148-156 | every chunk's metadata is one of the documents |
| Chatbot.EmbedAll | workspace-chatbot.js:150-155 | as many embeddings as chunks, each that chunk's; or the error of the first failing chunk, all earlier ones having succeeded |
| Chatbot.Indexed | workspace-chatbot.js:158 | a build stores one record per chunk exactly when every embedding succeeds |
| Chatbot.InitializeOutcome | workspace-chatbot.js:93-120 | binding and counting the collection are the first two requests, and either failing fails it with the network error; over a non-empty collection it succeeds exactly when the second count succeeds; a loaded file with nothing to build succeeds; when every request reaches the server it fails only on an unreadable file or a failed embedding |
| Chatbot.DocumentChunksConcat | workspace-chatbot.js:148-156 | chunks come document by document, in order |
| Chatbot.ChunksCoverDocument | workspace-chatbot.js:149 | a document's chunks put back together are its content |
| Chatbot.JoinedContentIsConcat | workspace-chatbot.js:149-150 | chunks carrying given texts, position by position, join to the concatenation of those texts |
| Chatbot.EmbedAllStopsAtFailure | workspace-chatbot.js:153 | once an embedding has thrown, later chunks do not matter |
| Chatbot.FailureEndsBuild | workspace-chatbot.js:153 | a failure at chunk c of document d is the error of the whole build |
| Chatbot.TwelveHundredCharacters | workspace-chatbot.js:149 | a 1200-character document gives chunks of 500, 500 and 200 characters, each carrying the document |
| Chatbot.WorkspaceChatbot.constructor | workspace-chatbot.js:84-91 | a fresh store with no collection, the configured templates, and a count of 0 |
| Chatbot.WorkspaceChatbot.EmbedDocuments | workspace-chatbot.js:143-156 | the nested loops compute all chunks document by document, and their embeddings or the first error |
| Chatbot.WorkspaceChatbot.EmbedAndStoreDocuments | workspace-chatbot.js:143-161 | on success the store gains exactly the build's records and `documentsCount` is the chunk count; on failure the store and the count are unchanged; a failed embedding is the error and sends no request, a failed store request is the network error |
| Chatbot.WorkspaceChatbot.Initialize | workspace-chatbot.js:93-120 | the outcome is `InitializeOutcome` of the starting state; a failed binding changes nothing; after a binding the handle is the live collection's; a non-empty collection is kept and counted, the count left as it was when the second count fails; an empty one is built from the file |
| Chatbot.WorkspaceChatbot.ReindexDocuments | workspace-chatbot.js:122-141 | never throws; a failed drop changes nothing; a failed binding after the drop leaves no live collection while the adapter keeps the dropped handle and the old count; a failed count leaves a fresh, empty, bound collection and the old count; otherwise the fresh bound collection holds exactly the build when the store request succeeds, or is empty with the count left as it was |
| Chatbot.WorkspaceChatbot.SearchSimilarDocuments | workspace-chatbot.js:259-262 | fails with the embedding's error, or when the collection is not usable; otherwise at most `topK` results |
| Chatbot.WorkspaceChatbot.ClassifyQueryWithLLM | workspace-chatbot.js:162-202 | a failed model call yields `OFF_TOPIC`; a label never has lower-case letters |
| Chatbot.WorkspaceChatbot.GenerateResponse | workspace-chatbot.js:204-245 | the greeting for `GREETING`, the refusal for non-business labels, and for business labels the apology or a cleaned answer without asterisks after a successful search |
| Chatbot.ClassificationFailureRefuses | workspace-chatbot.js:197-239 | when the classification call fails, the answer is the refusal |
| Chatbot.NothingRelevantApologises | workspace-chatbot.js:222-243 | without a no-context template, a business question whose results all fall below the floor gets the apology |
| Chatbot.GroundedAnswer | workspace-chatbot.js:222-230 | a business question with relevant context sends the filled grounded template to the model and returns its cleaned reply, or the apology if the call fails |
| Server.OrDefault | server.js:51-53 | JavaScript's logical-or default: the value when present and non-empty, the fallback otherwise |
| Server.SourceOf | server.js:50-54 | every citation field is non-empty: the document's own value, or `문서`, `unknown` or `제목 없음` |
| Server.Sources | server.js:50 | one citation per retrieved document, in order |
| Server.ChatbotServer.constructor | server.js:8-16 | no chatbot, not initialised, no watcher |
| Server.ChatbotServer.HandleStatus | server.js:65-80 | `online` exactly when initialised; `llm` is the flag; `vectorStore` holds exactly when initialised with a positive count; the count is reported; a missing chatbot throws |
| Server.ChatbotServer.HandleChat | server.js:39-62 | a missing or empty question gets 400 without using the chatbot; a missing chatbot or a failed source search gets 500; otherwise the answer and one citation for each of at most 2 retrieved documents |
| Server.ChatbotServer.Start | server.js:83-103 | creates the chatbot; `ragInitialized` holds exactly when initialisation succeeds, and the server listens and the watcher starts only then, with `/status` online; the count, records, collection and request counter after each failure case of initialisation, the count starting from 0, and the build from the file when the collection was empty |
| Server.ChatbotServer.OnDocumentsChanged | server.js:115-120 | with the watcher set up, a change rebuilds the index as `reindexDocuments` does, case by case on which request fails; without it nothing changes |
| Server.GreetingStillCitesSources | server.js:46-47 | a greeting is answered with the greeting and with sources from the index, a search made whatever the intent |
| Server.NoCollectionFailsChat | server.js:39-80 | with no live collection, as after a rebuild whose binding failed, every question gets 500 while `/status` still reports the last build's count |

## Left out

- HTTP, Express routing, middleware, static files and CORS headers are not modelled. The handlers are modelled as functions of the request field and the server state.
- Server.ChatbotServer.HandleStatus and Server.ChatbotServer.HandleChat are defined for every server state, including a null chatbot and `ragInitialized` false. The program never serves them there: `start` calls `app.listen` only after a successful initialisation (server.js:89-97). The `listening` flag records this.
- The chokidar watcher is not modelled. A change event is the method `Server.ChatbotServer.OnDocumentsChanged`.
- Console logging is not modelled.
- chat.js and chatbot-widget.js are not part of this model. They are browser user-interface code.
- Concurrency is not modelled: async interleaving, requests overlapping a rebuild, and two rebuilds at once. Every operation runs to completion in turn.
- JSON is not parsed or serialised. `documents.json` is a value that is unreadable or parsed. `original_metadata` round-trips exactly, so a record's metadata is the document itself.
- A `question` that is present but is not a string is not modelled. The request's question is an optional string.
- A document whose `content` is missing or not a string is not modelled.
- Embeddings and distances are not floating point. They are exact reals, and cosine arithmetic and the backend's nearest-neighbour ranking are left abstract.
- `toLowerCase` and `toUpperCase` change only ASCII letters. Full Unicode case mapping is not modelled, and a few inputs are therefore classified differently from the source. A model reply containing `ı` (U+0131) or `ſ` (U+017F), such as `prıce` or `ſervice`, upper-cases to `PRICE` or `SERVICE` in JavaScript and is answered from the index, while the model refuses it. A query containing `İ` (U+0130), such as `Hİ`, lower-cases to a text containing `hi` in JavaScript and is a greeting, while the model matches no keyword there. The ligature `ﬀ` (U+FB00) upper-cases to `FF`, but the only label containing that, `OFF_TOPIC`, is refused either way.
- Pipeline.ParseLabel: "never longer than the reply" holds for ASCII-only upper-casing. JavaScript's `toUpperCase` turns `ß` into `SS` and the ligatures `ﬀ` to `ﬆ` into two or three letters, so its label can be longer.
- Chunker.SplitIntoChunks: chunks windows of code points. JavaScript's `length` and `substring` count UTF-16 code units, so for text beyond the Basic Multilingual Plane the source cuts shorter chunks, and may split a surrogate pair, which a Dafny string cannot hold. `Chunker.BmpChunksInCodeUnits` proves the two agree within that plane; `Chunker.AstralTextIsOneChunk` shows where they part.
- Chunker.ChunkSizes: the sizes are in code points, and are the source's UTF-16 sizes only within the Basic Multilingual Plane.
- Chunker.ChunkCount: the count is ceil(code points / n); the source's is ceil(UTF-16 units / n), the same within the Basic Multilingual Plane.
- VectorStore.ChromaServer.Query: a query is answered as the next request would be, but it is not numbered. So the two searches of one `/chat` see the same availability.
- The remote services sit behind the model's function parameters. Replies with an unexpected shape are not modelled, such as a query reply with misaligned arrays. The server always answers aligned rows, so the adapter's mapping may assume alignment.
- `Date.now()` is a function of the chunk index passed in. Chunk ids are proved distinct within one batch, not across batches.
- The classification instructions and the template table are fixed texts. The chatbot receives them in its constructor, which states that they are the configured ones.
- VectorStore.ChromaVectorStore.SimilaritySearch: says that each result is a stored chunk, not which one. Which chunk follows from the backend's ranking, which is left abstract. `VectorStore.FromReply` states the exact mapping from a reply.
- Chatbot.WorkspaceChatbot.GenerateResponse: for business labels it says only that the answer is the apology, or a cleaned answer without asterisks after a successful search. The full chain is stated in `Chatbot.GroundedAnswer` and `Chatbot.NothingRelevantApologises`.
- Pipeline.CleanResponse: states only that asterisks are removed and that the answer does not grow. The lead-in cut is stated separately, in `Pipeline.CleanWithoutLeadIn` and `Pipeline.CleanAfterLeadIn`.

## Findings

| source | as written | input that shows it | evidently intended | confidence | as-written member | corrected member |
|---|---|---|---|---|---|---|
| config.js:11, config.js:70 | `helpKeywords` is a category inside `strictlyIrrelevantKeywords`, so `this.helpKeywords` is `undefined`. A query that matches no table throws at `this.helpKeywords.some`. Help words count as strictly irrelevant, and `help` and `general_question` are never returned. | `analyzeQueryType("")` throws; `"주차가능한지점이있나요?"` is strictly irrelevant because of `가능` | `helpKeywords` as its own table, checked after the core words; otherwise `general_question` | high, not executed | Config.AnalyzeQueryType, Config.EmptyQueryThrows | Config.AnalyzeQueryTypeIntended, Config.EmptyQueryIsGeneralWhenIntended |
