# Annuity chat pipeline: a verified model

This project models the deterministic core of the Annuity chat assistant in Dafny. For each chat turn, the service:

- loads the adviser's cached context;
- renders the two most recent history records;
- asks an intent classifier whether the question is about a product;
- for product questions, resolves the predicted product name against the adviser's catalog and assembles de-duplicated citation context;
- relays the generated answer's token stream to a per-chat Redis stream as ordered events.

Every external service is a parameter of the model:

- the language model, embeddings, the vector index and the document store;
- the rapidfuzz scorers;
- BeautifulSoup's `clean_text`;
- the context cache.

Redis is modelled as an in-memory map from stream names to append-only logs.

Modules, one per source file:

| file | module | source |
|---|---|---|
| `wrappers.dfy` | `Wrappers` | `Option` (Python `None`) and `Result` (a step that may raise) |
| `text.dfy` | `Text` | the `str` operations used: `isspace`, `lower`, `strip`, `split`, `join`, `in`, `str(n)`, `int(s)` |
| `history.dfy` | `History` | the history records and `history[::-1][:2]` rendering shared by the resolver and the processor |
| `rag.py` → `rag.dfy` | `Rag` | `match_product_name`, the quick exact match of `match_product_name_2`, `get_structured_data`, and how `get_rag_answer` uses the resolver |
| `context_builder.py` → `context.dfy` | `ContextBuilder` | `get_documents`, `CitationNode`, `RAGContext` |
| `intent_classifier.py` → `intent.dfy` | `IntentClassifier` | the intent literal, the few-shot example string, `_clean_product_names` |
| `redis_utils.py` → `redis.dfy` | `RedisUtils` | `formatter`, `push_stream_response`, `read_items` decoding, `RedisManager`, `RedisCache.get` |
| `query_response.py` → `relay.dfy` | `QueryResponse` | `handle_response_stream` |
| `response_processor.py` → `processor.dfy` | `ResponseProcessor` | `BotResponseProcessor` |

Behaviour of the code that the model makes explicit:

- **History arrives rendered.** `get_rag_answer` passes the rendered history string to `match_product_name`, whose body iterates records. See "Findings".
- **Resolver stages.** The resolver tries five stages in a fixed priority order:
  1. a history substring scan;
  2. an exact match of the normalised predicted name;
  3. a fuzzy match of the predicted name;
  4. an exact match of the normalised query;
  5. a fuzzy match of the query.
  
  If all five miss, the result is the null result.
- **Empty strings are substrings of everything.** A blank predicted name makes the history stage answer with the most recent question, whenever any history exists.
- **The "no product found" prompt in `get_rag_answer` cannot be reached.** The resolver's result is always a two-key dict, so it is always truthy.
- **The de-duplication key is a joined string**, `f"{product_id}_{page_number}"`. Distinct (product, page) pairs can therefore collide.
- **Page numbers.** A `page_number` key absent from the vector-search metadata becomes `""` in `get_documents`. `int("")` then raises while the node is built. The default `"1"` applies only to chunks that lack the key altogether.
- **Rebuilding.** Calling `build_context` twice on one instance ranks nothing new but appends every message again.
- **The stream relay never pushes an "error" event and never raises.** This follows the code at app/services/query_response.py:10-28. Only `BotResponseProcessor.process` pushes "error".
- **An empty cached context fails the turn.** `_initialize` returns None for an empty context, and `process` then fails on `None.get`. The turn takes the error path, and the `if not user_context: products = []` branch is dead.
- **`get_client` caches the client before pinging it.** A failed ping raises but leaves the unpinged client cached.
- **`RedisCache.get` catches only the builtin `ConnectionError` and `TimeoutError`.** redis-py's exceptions of those names are different classes and propagate.

## Model

| member | source | states |
|---|---|---|
| Text.LowerIsLowered | chatbot/tools/rag.py:90-91 | lower-casing yields a lower-case string and is the identity on one |
| Text.LStripDropsLeadingSpace | chatbot/tools/rag.py:90-91 | `lstrip` removes exactly a whitespace prefix and leaves a string not starting with whitespace |
| Text.RStripDropsTrailingSpace | chatbot/tools/rag.py:90-91 | `rstrip` removes exactly a whitespace suffix and leaves a string not ending with whitespace |
| Text.StripTrimmed | chatbot/tools/rag.py:90-91 | a string without surrounding whitespace is its own `strip()` |
| Text.StripIdempotent | chatbot/tools/rag.py:90-91 | stripping twice equals stripping once |
| Text.WordLen | chatbot/tools/rag.py:90-91 | the leading word of `split()` is the maximal run of non-whitespace characters |
| Text.Split | chatbot/tools/rag.py:90-91 | `split()` yields non-empty, whitespace-free words drawn from the input; with the lemmas below, the words are exactly the input's maximal non-whitespace runs, in order |
| Text.SplitDropsLeadingSpace | chatbot/tools/rag.py:90-91 | leading whitespace produces no word |
| Text.SplitSpaceRun | chatbot/tools/rag.py:90-91 | a whitespace run of any length separates words exactly as one space does: `split(a + run + b) == split(a) + split(b)` |
| Text.SplitEmptyIff | chatbot/tools/rag.py:90-91 | `split()` yields no word exactly when the string is all whitespace |
| Text.SplitStrip | chatbot/tools/rag.py:90-91 | stripping does not change the words of `split()` |
| Text.SplitJoin | chatbot/tools/rag.py:90-91 | `split()` of the single-space join of words gives back the words |
| Text.NormalEnds | chatbot/tools/rag.py:90-91 | a normal form built from words neither starts nor ends with whitespace |
| Text.NormalizeCollapsesSpace | chatbot/tools/rag.py:90-91 | normalisation collapses any whitespace run to a single space |
| Text.NormalizeIdempotent | chatbot/tools/rag.py:90-91 | normalising (lower, strip, collapse whitespace runs to one space) a normal form changes nothing |
| Text.StripLowerCommute | chatbot/tools/rag.py:42 | `s.lower().strip() == s.strip().lower()` |
| Text.NatToString | chatbot/tools/context_builder.py:80-83 | `str(n)` is a non-empty run of decimal digits |
| Text.ParseIntOfNatToString | chatbot/tools/context_builder.py:70 | `int(str(n)) == n` |
| History.Reverse | chatbot/response_processor.py:69 | `[::-1]` keeps the length and reverses positions |
| History.RecentIsLastTwo | chatbot/response_processor.py:69 | `history[::-1][:2]` is the last two records, most recent first |
| History.Items | chatbot/response_processor.py:69-70 | the recent items are empty exactly when every recent record is empty |
| History.Render | chatbot/response_processor.py:71 | each item renders as its question and answer plus the 20 fixed characters of `"Question: …\nAnswer: …\n"`, so the length is exactly 20 per item plus the lengths of the questions and answers |
| History.HistoryStringEmpty | chatbot/response_processor.py:68-71 | the rendered history is empty exactly when both recent records are empty |
| Rag.NameIdMap | chatbot/tools/rag.py:87 | the name-to-id map has exactly the catalog names as keys |
| Rag.NameIdMapLast | chatbot/tools/rag.py:87 | a name maps to the id of the last product listed under it |
| Rag.NameIdMapFromCatalog | chatbot/tools/rag.py:87 | every mapped id belongs to a catalog product with that name |
| Rag.HistoryHit | chatbot/tools/rag.py:93-107 | the history stage hits iff some recent item holds the clean predicted name or clean query in its lower-cased question or answer, and returns the question of the first such item |
| Rag.EmptyPredictedHitsFirstItem | chatbot/tools/rag.py:98-102 | an empty clean predicted name hits the first recent item |
| Rag.ScanHistory | chatbot/tools/rag.py:93-107 | the nested scan loop returns exactly the history stage's hit |
| Rag.ExactMatch | chatbot/tools/rag.py:110-117 | an exact-stage answer is a catalog name |
| Rag.ExactMatchFirst | chatbot/tools/rag.py:110-117 | the exact stage misses iff no catalog name normalises to the clean text, and otherwise returns the first one that does |
| Rag.FindExact | chatbot/tools/rag.py:111-117 | the exact-match loop returns exactly the exact stage's answer |
| Rag.InsertDesc | chatbot/tools/rag.py:156 | insertion adds exactly the new element to the multiset of elements |
| Rag.InsertDescSorted | chatbot/tools/rag.py:156 | insertion into a descending list keeps it descending |
| Rag.SortDesc | chatbot/tools/rag.py:156 | the sort is a permutation in descending score order |
| Rag.SortDescHead | chatbot/tools/rag.py:156-158 | the head after the stable sort is the first of the best-scoring entries |
| Rag.SortDescHeadIsMax | chatbot/tools/rag.py:156-158 | no entry outscores the head |
| Rag.AboveCutoff | chatbot/tools/rag.py:120-126 | the candidates are exactly the catalog names whose partial ratio reaches the cutoff, carrying that ratio |
| Rag.ExtractMember | chatbot/tools/rag.py:120-126 | every extracted candidate is a catalog name with its partial ratio, at or above the cutoff |
| Rag.ExtractTop | chatbot/tools/rag.py:120-126 | extract returns at most 5 candidates, best first, and a qualifying name left out was beaten by all 5 returned |
| Rag.RescoreKeepsSurvivors | chatbot/tools/rag.py:129-152 | rescoring raises iff a surviving candidate (or the raw text) is empty; otherwise it keeps exactly the candidates not below both floors, each with 0.4p+0.4t+0.2f plus 10 for a matching first letter |
| Rag.FuzzyStageDecides | chatbot/tools/rag.py:155-162 | a fuzzy stage accepts iff some survivor reaches the bar, and then accepts the first best-scoring survivor |
| Rag.FuzzyHitQualifies | chatbot/tools/rag.py:120-162 | an accepted name is a catalog name that cleared the cutoff and the drop rule and whose combined score reaches the bar |
| Rag.FuzzyMatch | chatbot/tools/rag.py:129-162 | the rescoring loop, sort and bar check return exactly the fuzzy stage's decision |
| Rag.CatalogMatch | chatbot/tools/rag.py:114-117 | a catalog answer returns the name with `name_id_map[name]` as its id |
| Rag.TryPredicted | chatbot/tools/rag.py:110-162 | the predicted-name stages run only for a non-empty predicted name: exact, then fuzzy with cutoff 90, floors 75/60 and bar 85 |
| Rag.TryQuery | chatbot/tools/rag.py:169-223 | the query stages: exact, then fuzzy with cutoff 85, floors 65/50 and bar 75, then the null result |
| Rag.MatchProductName | chatbot/tools/rag.py:76-223 | the resolver runs the stages in priority order, each returning early, and returns exactly `Resolve` |
| Rag.ResolveResults | chatbot/tools/rag.py:83-223 | a history hit answers with the question and `name_id_map.get(k)`; otherwise the answer is a catalog name with `name_id_map[name]`, or the null result, or IndexError |
| Rag.PredictedStagesResult | chatbot/tools/rag.py:110-162 | when the predicted-name stages answer, the answer is a catalog answer or IndexError |
| Rag.QueryStagesResult | chatbot/tools/rag.py:169-223 | the query stages answer with a catalog answer, the null result or IndexError |
| Rag.NoMatchMeansAllStagesMissed | chatbot/tools/rag.py:169-223 | the null result implies no history hit, no catalog name with the predicted name's or the query's normal form, and a fuzzy query miss |
| Rag.PredictedSpellingVariantResolves | chatbot/tools/rag.py:110-117 | a predicted name differing from a catalog name only in case and spacing resolves to a catalog name with its normal form |
| Rag.BlankPredictedNameAnswersFromHistory | chatbot/tools/rag.py:91-102 | with a blank predicted name and any recent history item, the answer is the first recent question |
| Rag.RenderedHistoryDefeatsResolver | chatbot/tools/rag.py:93-96 | the call with the rendered history string raises AttributeError whenever history exists, where the resolver given records answers |
| Rag.QuickEqNormalize | chatbot/tools/rag.py:42 | a quick match implies equal normal forms |
| Rag.QuickMissIff | chatbot/tools/rag.py:40-48 | the quick loop falls through iff every product has a name and none matches after strip and lower |
| Rag.QuickHitFirst | chatbot/tools/rag.py:40-48 | a quick hit is the first matching product, returned with its own name and id |
| Rag.QuickHitIsCatalogName | chatbot/tools/rag.py:40-48 | a quick hit names a catalog product with the predicted name's normal form |
| Rag.QuickExactMatch | chatbot/tools/rag.py:40-48 | the quick loop returns exactly `QuickMatch`, including KeyError on a missing "name" or "id" |
| Rag.ProjectKeepsRelevant | chatbot/tools/rag.py:245-247 | the projection keeps exactly the document's fields named in RELEVANT_FIELDS, and every projected pair comes from the document |
| Rag.ProjectAppend | chatbot/tools/rag.py:247 | the projection keeps document order |
| Rag.ChooseLookup | chatbot/tools/rag.py:237-244 | look up by a non-empty product id, else by a non-empty product name, else not at all |
| Rag.GetStructuredData | chatbot/tools/rag.py:226-248 | the result holds only relevant fields; it is empty when there is nothing to look up or nothing is found, and otherwise holds exactly the found document's relevant fields: every pair comes from that document, and each of its relevant pairs is kept |
| Rag.NoMatchBranchUnreachable | chatbot/tools/rag.py:310-320 | the resolver's dict always has its two keys, so the product branch is always taken; its two `get_structured_data` calls equal one call with both arguments, and the null result gives no facts |
| ContextBuilder.MetaRecord | chatbot/tools/context_builder.py:29 | a record has exactly the six relevant fields, absent ones set to `""` |
| ContextBuilder.GetDocuments | chatbot/tools/context_builder.py:26-31 | one record per match, in order, each the projection of the match's metadata (`{}` when absent) |
| ContextBuilder.KeyCollides | chatbot/tools/context_builder.py:57 | two chunks with different (product, page) pairs share a key |
| ContextBuilder.MissingPageFailsAfterGetDocuments | chatbot/tools/context_builder.py:70 | a record whose metadata lacked `page_number` holds `""` there, and building its node fails in `int()` |
| ContextBuilder.BuilderNumbersByRank | chatbot/tools/context_builder.py:62-73 | the node built for rank r has id r |
| ContextBuilder.ScanSkips | chatbot/tools/context_builder.py:59-60 | a chunk whose key was seen is skipped without a new rank |
| ContextBuilder.ScanStops | chatbot/tools/context_builder.py:61-72 | a new key whose node fails to build is recorded as seen, and the exception escapes |
| ContextBuilder.ScanRanksNode | chatbot/tools/context_builder.py:61-73 | a new key's node is ranked at the current rank, and the rank advances |
| ContextBuilder.ScanNumbersConsecutively | chatbot/tools/context_builder.py:55-73 | ranked nodes are numbered consecutively from the starting rank, one per kept chunk, and the seen keys only grow |
| ContextBuilder.ScanKeptIncreasing | chatbot/tools/context_builder.py:56-61 | kept chunks are taken in input order |
| ContextBuilder.ScanNodesBuiltFrom | chatbot/tools/context_builder.py:62-72 | each ranked node is built, with its rank, from the chunk at its kept position |
| ContextBuilder.ScanSeesAllKeys | chatbot/tools/context_builder.py:59-61 | a build that does not raise has seen every key of its chunks |
| ContextBuilder.ScanKeepsFirstOccurrences | chatbot/tools/context_builder.py:56-61 | a chunk is kept iff its key occurs there for the first time and was not seen before |
| ContextBuilder.RankedCountIsDistinctKeys | chatbot/tools/context_builder.py:55-73 | the number of ranked nodes is the number of distinct new keys |
| ContextBuilder.ScanAllSeen | chatbot/tools/context_builder.py:59-60 | when every key is already seen the loop ranks nothing and changes nothing |
| ContextBuilder.RebuildRanksNothing | chatbot/tools/context_builder.py:54-73 | a second build on the same instance ranks nothing new |
| ContextBuilder.PutAllDense | chatbot/tools/context_builder.py:75-76 | consecutively numbered nodes are indexed exactly by their ids, each id giving its node |
| ContextBuilder.FreshBuildIndexesByRank | chatbot/tools/context_builder.py:54-76 | on a fresh instance the ids are 1..N and `chunk_map` maps exactly 1..N, each to its node |
| ContextBuilder.UnwrapWrap | chatbot/tools/context_builder.py:79-85 | a message with or without index markers gives back exactly the cleaned text |
| ContextBuilder.Messages | chatbot/tools/context_builder.py:78-87 | one message per ranked node |
| ContextBuilder.MessagesAppend | chatbot/tools/context_builder.py:78-87 | messages are in node order, one appended per node |
| ContextBuilder.IndexById | chatbot/tools/context_builder.py:75-76 | the index loop stores each node under its id, later nodes overwriting |
| ContextBuilder.RenderMessages | chatbot/tools/context_builder.py:78-87 | the message loop renders the nodes in order |
| ContextBuilder.RAGContext.constructor | chatbot/tools/context_builder.py:45-52 | a new context starts with no ranked chunks, seen keys, index or messages |
| ContextBuilder.RAGContext.BuildContext | chatbot/tools/context_builder.py:54-87 | seen keys, ranked chunks, index and messages become what the de-duplicating scan, `PutAll` and `Messages` give; a failing node leaves the index and messages untouched |
| ContextBuilder.RAGContext.BuildContextWith | chatbot/tools/context_builder.py:54-87 | the three loops with the node builder as a parameter, same new state |
| ContextBuilder.RAGContext.RankChunks | chatbot/tools/context_builder.py:55-73 | the first loop leaves exactly the scan's seen keys, ranked nodes and error, and touches neither index nor messages |
| IntentClassifier.ParseIntentName | chatbot/intent_classifier.py:19-21 | the intent literal accepts exactly "ProductInfo" and "AnnuitiesFAQ", and naming and parsing are inverse |
| IntentClassifier.ExampleStringLines | chatbot/intent_classifier.py:53-54 | splitting the example string at line breaks gives each match's payload in order, `""` when metadata or payload is missing |
| IntentClassifier.SplitJoinLines | chatbot/intent_classifier.py:54 | `"\n".join` of line-free strings splits back into them |
| IntentClassifier.ExampleStringLength | chatbot/intent_classifier.py:54 | the example string is as long as the payloads plus one separator between each two |
| IntentClassifier.IndexOf | chatbot/intent_classifier.py:54 | the first line break, or the end |
| IntentClassifier.StripSpecial | chatbot/intent_classifier.py:31 | cleaning never lengthens the name; with the lemmas below, it deletes exactly the characters outside `[\w\s.\d]` and keeps every other one, in order |
| IntentClassifier.StripSpecialOne | chatbot/intent_classifier.py:31 | one character is kept exactly when `[\w\s.\d]` matches it |
| IntentClassifier.StripSpecialAppend | chatbot/intent_classifier.py:31 | cleaning distributes over concatenation, so each character is judged on its own |
| IntentClassifier.StripSpecialCounts | chatbot/intent_classifier.py:31 | an allowed character occurs in the result as often as in the input, a disallowed one not at all |
| IntentClassifier.StripSpecialKeepsOnlyAllowed | chatbot/intent_classifier.py:31 | the cleaned name holds only word characters, whitespace and '.' |
| IntentClassifier.StripSpecialIsSubsequence | chatbot/intent_classifier.py:31 | cleaning only deletes characters and keeps the rest in order |
| IntentClassifier.StripSpecialOfAllowed | chatbot/intent_classifier.py:31 | a name of allowed characters is unchanged |
| IntentClassifier.StripSpecialIdempotent | chatbot/intent_classifier.py:31 | cleaning is idempotent |
| IntentClassifier.ToolSpec.CleanProductNames | chatbot/intent_classifier.py:27-33 | only "product_name" is rewritten, and only when present; the key set and all other keys are unchanged |
| RedisUtils.Flatten | common/redis_utils.py:70 | the payload is sent as `[k1, v1, k2, v2, …]` |
| RedisUtils.DecodeFlatten | common/redis_utils.py:89-90 | decoding the fields of a pushed payload gives back the payload's dict |
| RedisUtils.DecodeFieldsLaterWins | common/redis_utils.py:89-90 | the decoded keys are the even-position fields, and a repeated key takes its last value |
| RedisUtils.DecodeFromKeys | common/redis_utils.py:89-90 | the decoded keys are exactly the even-position fields |
| RedisUtils.FormatterFields | common/redis_utils.py:176-187 | the payload always has type and chat_id; data iff given, status iff given, nothing else |
| RedisUtils.FormatterRoundTrip | common/redis_utils.py:176-189 | the payload read back from the stream carries the type, chat id, data and status given |
| RedisUtils.StreamNameInjective | common/redis_utils.py:196 | `f"{prefix}_{chat_id}_response"` differs for different chats |
| RedisUtils.RedisStore.PushStreamResponse | common/redis_utils.py:192-198 | the payload is appended to its chat's stream; a missing chat id or a failing server pushes nothing, and nothing is raised |
| RedisUtils.RedisStore.Emit | common/redis_utils.py:176-189 | `formatter` pushes exactly its payload |
| RedisUtils.PushedAllOneChat | common/redis_utils.py:192-198 | pushing one chat's payloads appends their encodings, in order, to that chat's stream only, and only when the server is up |
| RedisUtils.XRead | common/redis_utils.py:81-83 | an `xread` reply for one stream is empty or names that stream |
| RedisUtils.ReadItems | common/redis_utils.py:76-99 | the nested loops decode every entry in stream-then-entry order into id and message; an empty reply gives `[]`; a malformed entry raises |
| RedisUtils.DecodeStream | common/redis_utils.py:88-94 | the inner loop decodes one stream's entries after those already decoded, raising at the first malformed one |
| RedisUtils.DecodeEntriesWellFormed | common/redis_utils.py:85-96 | well-formed entries decode to one message per entry, ids in reply order |
| RedisUtils.DecodeEntriesPrefixFails | common/redis_utils.py:89-99 | once an entry fails to decode, the whole read raises |
| RedisUtils.ReadAfterPush | common/redis_utils.py:64-99 | a payload pushed to a chat's stream is read back, with its position as id, as the dict that was pushed |
| RedisUtils.RedisManager.constructor | common/redis_utils.py:14-15 | no client is cached at start |
| RedisUtils.RedisManager.GetClient | common/redis_utils.py:23-45 | a client is created only when none is cached and is then returned until closed; a failed ping re-raises the ping's own exception but leaves the new client cached |
| RedisUtils.RedisManager.Close | common/redis_utils.py:47-53 | close drops the cached client |
| RedisUtils.CacheGetCases | common/redis_utils.py:116-127 | a value is returned iff a non-empty one is stored; only the builtin ConnectionError and TimeoutError are swallowed as None |
| RedisUtils.CacheGetFrom | common/redis_utils.py:116-127 | against a healthy server, `get` returns exactly the non-empty stored value |
| QueryResponse.HandleResponseStream | app/services/query_response.py:10-28 | the relay returns `RelayResult` and pushes exactly `RelayEvents` to the chat's stream, never raising |
| QueryResponse.WalkRaisedStays | app/services/query_response.py:14-16 | after a chunk raises, later chunks change nothing |
| QueryResponse.EventFields | app/services/query_response.py:18-23 | a "stream" event carries its piece and chat id; the "ended" event carries "Processing completed" |
| QueryResponse.WalkPushesPieces | app/services/query_response.py:14-19 | each non-empty content piece pushes exactly one "stream" event, in order, and `full_response` is their concatenation; other chunks push nothing |
| QueryResponse.WalkStreamData | app/services/query_response.py:18-19 | the stream events' data concatenates to `full_response` |
| QueryResponse.WalkCounts | app/services/query_response.py:14-19 | the loop pushes no "ended" and no "error" event |
| QueryResponse.RelayResponseIsStreamData | app/services/query_response.py:18-25 | on success the response is the concatenated data of the stream events |
| QueryResponse.RelayEndsOnce | app/services/query_response.py:23-28 | success: exactly one "ended" event, last; failure: none, and the response is `""`; never an "error" event |
| QueryResponse.FailureKeepsEarlierEvents | app/services/query_response.py:26-28 | a chunk that raises fails the relay, but the earlier stream events stay pushed |
| QueryResponse.WalkOneChat | app/services/query_response.py:18 | every stream event carries the chat id |
| QueryResponse.RelayEventsOneChat | app/services/query_response.py:18-23 | every event carries the chat id |
| QueryResponse.RelayStoreEffect | app/services/query_response.py:10-28 | the relay grows only the chat's response stream, by exactly its encoded events, when the server is up |
| ResponseProcessor.DispatchCases | chatbot/response_processor.py:79-95 | "ProductInfo" selects the RAG answer with the query, products, rendered history and tool spec; any other or missing intent selects the FAQ answer with the query |
| ResponseProcessor.NoContextFails | chatbot/response_processor.py:42-66 | both adviser ids empty raises ValueError, and an empty or missing context fails on `None.get` |
| ResponseProcessor.PlanRagCall | chatbot/response_processor.py:63-95 | a planned call has a non-empty context and a classifier answer; it is the RAG call iff the intent is "ProductInfo", and carries the stripped query, cached products and rendered history |
| ResponseProcessor.ErrorEventOnlyOnFailure | chatbot/response_processor.py:100-106 | a failed turn pushes exactly one "error" event with status "Processing failed"; a relayed turn pushes none |
| ResponseProcessor.ReplyByMode | chatbot/response_processor.py:97-110 | failure answers the error dict in "api" mode and None otherwise; success answers the relay's result |
| ResponseProcessor.ProductTurnWithHistoryPushesNothing | app/services/query_response.py:10-28 | a "ProductInfo" turn whose recent history holds an item, with a RAG generator that raises on a non-empty history string, answers `{"status": "failed", "response": ""}` and pushes no event at all |
| ResponseProcessor.RenderHistory | chatbot/response_processor.py:66-71 | the nested `+=` loops build exactly the rendered two most recent records |
| ResponseProcessor.AppendTurns | chatbot/response_processor.py:70-71 | the inner loop appends one record's items, each as one question and answer, in order |
| ResponseProcessor.BotResponseProcessor.constructor | chatbot/response_processor.py:23-36 | the query is stored stripped, and there is no context yet |
| ResponseProcessor.BotResponseProcessor.Initialize | chatbot/response_processor.py:38-48 | ValueError when both ids are empty, with the stored context unchanged; otherwise `self.user_context` becomes the context fetched for the argument id or else the instance id (`{}` if none), which is returned only when non-empty |
| ResponseProcessor.BotResponseProcessor.Process | chatbot/response_processor.py:56-110 | the turn returns `TurnReply` and pushes exactly `TurnEvents`: the relay's events, or one "error" event. `self.user_context` becomes the fetched context (`{}` if none), or is unchanged when the adviser id is empty |

## Left out

- Rag.Scorers: the rapidfuzz ratios are parameters with values in [0, 100], and nothing else about them is assumed.
- Rag.CombinedScore: scores are exact reals, so floating-point rounding of `0.4 * p + …` is not modelled.
- Rag.Extract: ties in `process.extract` are kept in catalog order.
- Text.LowerChar: lower-cases ASCII letters only. Python's `str.lower` also maps other Unicode letters.
- IntentClassifier.IsWordChar: `\w` is ASCII letters, digits and `_`. Python's Unicode `\w` also keeps other letters and digits, which this model deletes.
- Text.ParseInt: does not accept the underscores or non-ASCII digits that `int()` accepts. Metadata values are strings, so `int()` of a float page number is not modelled.
- Rag.Product and ContextBuilder.Chunk hold string values only. Non-string document and metadata values are not modelled.
- Rag.GetStructuredData: returns the projected document, not its `json.dumps` text.
- BeautifulSoup's `clean_text` is the `Cleaner` parameter. A `None` result stands for an exception.
- ContextBuilder.RAGContext.BuildContextWith: takes the node builder as a parameter, and its three loops live in `RankChunks`, `IndexById` and `RenderMessages`. `chunk.dict()` is stored as the node itself.
- The language model, embeddings, Pinecone, Mongo and the HuggingFace endpoint are parameters: `Generators`, `Classifier`, `Finder`, and the stream `Source`. The LLM completion of `match_product_name_2` is left out: it is model output, and its result is only printed.
- `predict_tool`: only the example string and the intent literal are modelled. The prompt text, today's date and the parsed tool spec come from the `Classifier` parameter.
- `retrieve_context` (core/utils.py) is the `ContextSource` parameter. It returns None when nothing usable is cached.
- Redis:
  - RedisUtils.RedisStore.up stands for the whole connect step (`get_client`, then `xadd`).
  - Stream ids are positions in the log, not `ms-seq` strings.
  - Replies are strings, not the bytes redis-py returns.
  - The blocking `$` form of `xread` is left out. `ReadItems` takes the reply, and `XRead` reads from an explicit position.
- RedisUtils.ReadItems: takes each entry's fields as the flat `[k1, v1, …]` list that the loop at common/redis_utils.py:89-90 indexes. redis-py's `xread` response callback hands each entry's fields back already parsed into a dict. On such a reply, `fields[0]` raises KeyError for every non-empty entry, and the read re-raises it. That parsed reply shape is not modelled, because it comes from the client library, which is not part of this model.
- RedisUtils.ReadAfterPush: the round trip holds for the modelled flat reply shape only. With redis-py's parsed dict replies, the read described under RedisUtils.ReadItems raises instead of returning the pushed payload.
- RedisUtils.RedisManager: models the class-level client cache as one object. `__new__` singleton mechanics and a failing `close()` are not modelled.
- RedisUtils.CacheGet: the connect step before the `GET` is not modelled.
- `RedisCache.set` and `delete`, `push_debug_info`, and `RedisPubSub` are left out. They are outside the turn modelled here, and the subscribe loop exists for concurrency.
- `asyncio.sleep(0)`, task scheduling, logging and `print` are left out. They do not change the values computed.
- ResponseProcessor.BotResponseProcessor.Process: `JSONResponse` is modelled as its content, and the default `RedisStream()`/`RedisCache()` arguments, which are never used, are left out.
- The HTTP routes, prompts, PDF ingestion, configuration and database wiring are left out. They are not part of the modelled pipeline.

## Findings

| source | as written | input that shows it | evidently intended | confidence | as-written member | corrected member |
|---|---|---|---|---|---|---|
| chatbot/tools/rag.py:302-304 | `get_rag_answer` passes the rendered `history` string to `match_product_name`, which runs `record.items()` over `history[::-1][:2]` (chatbot/tools/rag.py:95-96), i.e. over characters | any turn whose recent history holds one question, e.g. `[{"q": "a"}]`, rendered as `"Question: q\nAnswer: a\n"`, raises AttributeError before any stage runs. The call runs inside `tool_func()`, within the `try` of `handle_response_stream` (app/services/query_response.py:11-12, 26-28). So such a "ProductInfo" turn returns `{"status": "failed", "response": ""}` and pushes neither an "ended" nor an "error" event | the resolver receives the list of history records and scans them | high (not executed) | Rag.ResolveWithRenderedHistory | Rag.Resolve |
