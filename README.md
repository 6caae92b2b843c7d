# A Dafny model of the ARC chat backend

The backend answers questions about documents it has ingested. It is a retrieval-augmented chat service.

- **Ingestion.** A worker receives S3 upload events from an SQS queue. It reads each PDF, either with a PDF library for digital files or with Textract for scanned ones. It cleans the text and splits it into overlapping chunks; table rows are repeated with their headers. It embeds every chunk with a Bedrock embedding model, stores the vectors in Qdrant and records the document's progress in a DynamoDB status table.
- **Answering.** A chat request must pass a sliding-window rate limiter and a Bedrock budget. It picks up the conversation's history and detects the language of the query and of the conversation. It then retrieves chunks by a hybrid of BM25 and vector search, builds a numbered context section and asks Claude. The answer is streamed back as server-sent events.
- **Support.** Bedrock calls are wrapped in a classified retry with exponential backoff. Metrics go to CloudWatch in batches. Two DynamoDB chat-history stores exist, the backend one with a small read cache and an older one under `src/`.

The project has one Dafny module per source file, and each module takes the form of its file:

- State that the source changes in place becomes a `class`. Examples are the window counters and per-user dictionaries of the rate limiter, the BM25 index, the metric buffer, the budget totals, the history cache and the worker's counters.
- Loops become methods with invariants, proved against specification functions. Examples are chunking, batching, retries, flushing and page assembly.
- Pure logic becomes functions and lemmas. Examples are text cleaning, error classification, the status transition table, language detection, prompt and citation formatting, SSE framing and pagination.

Everything outside the process is an input:

- DynamoDB, S3, SQS, Textract, Bedrock, CloudWatch and Qdrant appear as answer sequences or oracle functions.
- The clock, uuid generation and random jitter are parameters.
- PDF pages are given as already-read text, or as a marker that reading the page raised.

Floating-point quantities are exact reals, or integer cross-multiplications where the source only compares them.

Where the repository's tests or its prose disagree with the code, the model follows the code:

- `_process_document` never returns `SKIPPED`. `SqsWorker.CompletedIff` shows that the only outcomes are COMPLETED and FAILED.
- A FAILED document may be moved back to `IDP_RUNNING` or `UPLOADED`, as `VALID_TRANSITIONS` allows. `DocumentStatusManager.EveryStatusCanFinish` relies on that.
- The chat request's `top_k` defaults to 3 and is at most 10.
- The RAG prompt template has no `CONTEXT:` heading.
- The Qdrant client has no filter builder, no `search_for_rag` and no de-duplication. It defines neither `SearchFilter` nor `RAGContext`, although the RAG service and the chat API import both from it.
- No client-side consumer of the event stream is part of the code, so only the server side that produces the frames is modelled.

## Model

| member | source | states |
|---|---|---|
| Lib.StripIsTrimmedSlice | backend/app/services/text_chunker.py:144 | str.strip(): a contiguous slice that neither starts nor ends with whitespace, with only whitespace cut away |
| Lib.StripEmptyIffAllSpace | backend/app/services/text_chunker.py:63 | a string strips to "" exactly when it is all whitespace |
| Lib.StripRangeIsStrip | backend/app/services/text_chunker.py:144 | the index-based strip of text[start:end] is strip() of the slice |
| Lib.SplitOn | backend/app/services/text_chunker.py:534 | str.split(c) never returns an empty list and no piece contains the separator |
| Lib.JoinSplitOn | backend/app/services/text_chunker.py:534 | joining the pieces of split(c) with c gives back the input |
| Lib.Words | backend/app/services/language_context.py:69 | str.split(): the maximal non-empty runs without whitespace |
| Lib.WordsCover | backend/app/services/language_context.py:69 | str.split() drops only whitespace: the text is its words with whitespace runs around them, non-empty between two words, so the words are exactly the maximal non-whitespace runs in order |
| Lib.Lower | backend/app/services/language_context.py:62 | str.lower() maps ASCII capitals 32 code points down, keeps lower-case ASCII, maps the Latin-1 capitals À to Þ (× aside) 32 code points down, Ă Đ Ĩ Ũ Ơ Ư to the small letter after each, and each capital of the Latin Extended Additional pairs to the small letter after it |
| Lib.LowerStrAt | backend/app/services/language_context.py:62 | each character of s.lower() is that character lowered |
| Lib.Upper | backend/app/api/admin.py:185 | str.upper() maps ASCII lower-case letters 32 code points up, keeps capitals, maps the Latin-1 small letters à to þ (÷ aside) 32 code points up, ă đ ĩ ũ ơ ư to the capital before each, the dotless i to I, and each small letter of the Latin Extended Additional pairs to the capital before it |
| Lib.CaseInverse | backend/app/api/admin.py:185 | upper and lower case undo each other on every letter they change, the dotless i aside |
| Lib.UpperStrKeeps | backend/app/api/admin.py:185 | a string whose every character is its own upper case is its own upper case |
| Lib.UpperLowerStr | backend/app/api/admin.py:185 | upper-casing a lowered string gives it back when each of its characters survives lowering and upper-casing |
| Lib.StrLeTotal | backend/app/api/admin.py:212 | Python string comparison is total |
| Lib.StrLeTrans | backend/app/api/admin.py:212 | Python string comparison is transitive |
| Lib.Batches | backend/app/services/embeddings_service.py:96-97 | slices of size, all non-empty, all full except the last, and none exactly when the input is empty |
| Lib.FlattenBatches | backend/app/services/embeddings_service.py:96-97 | batching loses, duplicates and reorders nothing |
| Lib.NatToString | backend/app/services/rag_service.py:257 | str(n) is a non-empty string of digits |
| Lib.IntToStringInjective | backend/app/services/rag_service.py:257 | distinct numbers render distinctly |
| Lib.ParseIntToString | backend/app/api/chat.py:213-217 | int(str(i)) == i |
| Sorting.SortBy | backend/app/services/bm25_search.py:349 | sorted() returns a permutation of its input |
| Sorting.SortBySorted | backend/app/services/bm25_search.py:349 | sorted() orders its result by a total preorder |
| Sorting.PyPrefix | backend/app/services/bm25_search.py:357 | s[:k] is a prefix of s, k long when k fits, and counts from the end for negative k |
| Sorting.SortByStable | backend/app/services/bm25_search.py:349 | sorted() is stable: the elements that tie with any value keep their input order, which decides which tied results survive a top-k cut |
| Sorting.InsertStable | backend/app/services/bm25_search.py:349 | one insertion puts the new element ahead of every element it ties with and keeps their order |
| Sorting.PermutationKeepsKeysDistinct | backend/app/services/bm25_search.py:349 | sorting a list in which no key repeats gives a list in which no key repeats |
| TextChunker.ChunkText | backend/app/services/text_chunker.py:45-77 | returns exactly ChunksOf: [] for blank text, the ValueError when chunk_size×4 ≤ overlap×4, else boundary or simple chunking |
| TextChunker.ChunksOfOutcome | backend/app/services/text_chunker.py:63-72 | blank text gives [] whatever the sizes, because that check comes first; otherwise chunking fails exactly when chunk_size ≤ overlap |
| TextChunker.ShortTextSingleChunk | backend/app/services/text_chunker.py:126-134 | a text no longer than one window gives exactly one chunk: the stripped text, index 0, start 0, end len(text) |
| TextChunker.ChunkSimple | backend/app/services/text_chunker.py:80-109 | the loop's chunks equal the spec SimpleChunksFrom, including its early break when the next start lies within the overlap of the end |
| TextChunker.SimpleChunksShape | backend/app/services/text_chunker.py:90-107 | chunk k has index k, starts Steps(k, chunk−overlap) in (k·(chunk−overlap) by StepsIsProduct), ends chunk_chars later or at the text end, and holds exactly that slice |
| TextChunker.SimpleChunksReachEnd | backend/app/services/text_chunker.py:90-106 | with a non-negative overlap the last simple chunk ends at the end of a non-empty text |
| TextChunker.ChunkWithBoundaries | backend/app/services/text_chunker.py:112-169 | the loop's chunks equal the spec BoundaryChunks: windows advance by chunk−overlap, are cut at the best boundary, and blank windows are skipped |
| TextChunker.EmitStep | backend/app/services/text_chunker.py:144-167 | one loop step: the window's chunk (if any) is appended, then the rest of the windows, or none once the window reaches the end |
| TextChunker.ChunksAlongShape | backend/app/services/text_chunker.py:136-167 | every emitted chunk is the chunk of a window, numbered consecutively; a blank window consumes no number |
| TextChunker.ChunksAlongIncrease | backend/app/services/text_chunker.py:161-163 | emitted chunks start at strictly increasing positions, none before the first window |
| TextChunker.BoundaryChunksWellFormed | backend/app/services/text_chunker.py:136-167 | chunk k is numbered k, starts at least k steps in, covers a non-empty range inside the text (start < end ≤ len) and holds that range stripped |
| TextChunker.BoundaryChunksOrdered | backend/app/services/text_chunker.py:161-163 | boundary chunks start at strictly increasing positions |
| TextChunker.WindowEnd | backend/app/services/text_chunker.py:138-142 | the cut of a window lies between its start and the text end |
| TextChunker.BoundaryCut | backend/app/services/text_chunker.py:138-142 | the cut function stays inside the text and equals WindowEnd at every start |
| TextChunker.WindowChunk | backend/app/services/text_chunker.py:144-155 | a window contributes at most one chunk |
| TextChunker.WindowChunkShape | backend/app/services/text_chunker.py:144-155 | the window's chunk, when there is one, is well formed: numbered by the running index, inside the text, holding its range's stripped non-empty text |
| TextChunker.WindowChunkStarts | backend/app/services/text_chunker.py:144-155 | the window's chunk, when there is one, starts at the window start |
| TextChunker.FindBestBoundary | backend/app/services/text_chunker.py:172-201 | the cut lies in [start, end] |
| TextChunker.SearchStart | backend/app/services/text_chunker.py:182 | the search window starts at max(start, end − chunk_chars//4) |
| TextChunker.BoundaryIn | backend/app/services/text_chunker.py:182-201 | the cut lies within [start, end] |
| TextChunker.BoundaryFrom | backend/app/services/text_chunker.py:182-201 | the cut lies within the search window |
| TextChunker.BoundaryInPrefers | backend/app/services/text_chunker.py:182-201 | preference order: after the last paragraph break, else after the whitespace following the last sentence end, else at the last whitespace run, else at end |
| TextChunker.BoundaryAfterParagraph | backend/app/services/text_chunker.py:186-188 | with a "\n\n" in the window the cut follows the last run of newlines |
| TextChunker.BoundaryAfterSentence | backend/app/services/text_chunker.py:191-193 | without a paragraph break but with a sentence end, the cut follows the whitespace after the last one |
| TextChunker.BoundaryAtSpace | backend/app/services/text_chunker.py:196-198 | with only whitespace, the cut is the start of the last whitespace run |
| TextChunker.BoundaryAtEnd | backend/app/services/text_chunker.py:200-201 | a window without whitespace is cut at its end |
| TextChunker.MatchesHaveSpace | backend/app/services/text_chunker.py:186-198 | any match the three patterns find contains whitespace |
| TextChunker.LastParagraphBreakEnd | backend/app/services/text_chunker.py:186-188 | the end of a found match of \n\n+ lies in the window, just after a "\n\n" pair |
| TextChunker.LastParagraphBreakIsLast | backend/app/services/text_chunker.py:186-188 | no "\n\n" starts after the one found, and none exists when none is found |
| TextChunker.LastSentenceMark | backend/app/services/text_chunker.py:191-193 | a found sentence mark [.!?] followed by whitespace lies in the window |
| TextChunker.LastSentenceMarkIsLast | backend/app/services/text_chunker.py:191-193 | no sentence mark lies after the one found, and none exists when none is found |
| TextChunker.LastSpace | backend/app/services/text_chunker.py:196-198 | a found position is whitespace inside the window |
| TextChunker.LastSpaceIsLast | backend/app/services/text_chunker.py:196-198 | no whitespace follows the one found, and none exists when none is found |
| TextChunker.SpaceRunEnd | backend/app/services/text_chunker.py:191-193 | the end of the \s+ run is not whitespace, or is the window end |
| TextChunker.SpaceRunEndIsRun | backend/app/services/text_chunker.py:191-193 | everything the run passes over is whitespace |
| TextChunker.SpaceRunStart | backend/app/services/text_chunker.py:196-198 | the start of the \s+ run ending at a position follows a non-space or the window start |
| TextChunker.SpaceRunStartIsRun | backend/app/services/text_chunker.py:196-198 | everything between the run start and the position is whitespace |
| TextChunker.StepsIsProduct | backend/app/services/text_chunker.py:161-163 | k window advances of step characters are k·step characters |
| TextChunker.EstimateTokens | backend/app/services/text_chunker.py:239-243 | n = len(text)//4, stated as 4n ≤ len < 4(n+1), which covers the empty text |
| TextChunker.GetChunkStats | backend/app/services/text_chunker.py:246-264 | all zeros for []; otherwise the chunk count and the sums of the char counts and token estimates |
| TextChunker.ChunkStatsAverage | backend/app/services/text_chunker.py:265 | avg_chunk_size is the floor of total_tokens / n: avg·n ≤ total < (avg+1)·n |
| TextChunker.ChunkStatsExtremes | backend/app/services/text_chunker.py:266-267 | min_chunk_size and max_chunk_size bound every chunk's token estimate and are each some chunk's estimate |
| TextChunker.MinOf | backend/app/services/text_chunker.py:266 | min() is a lower bound that occurs in the list |
| TextChunker.MaxOf | backend/app/services/text_chunker.py:267 | max() is an upper bound that occurs in the list |
| TextChunker.CharCounts | backend/app/services/text_chunker.py:258 | the per-chunk char counts, in order |
| TextChunker.TokenCounts | backend/app/services/text_chunker.py:259 | the per-chunk token estimates, in order |
| TextChunker.ChunkTableWithHeaders | backend/app/services/text_chunker.py:317-413 | returns exactly TableChunks: [] below two rows, one chunk per group of rows_per_chunk data rows, numbered from start_index |
| TextChunker.TableChunksShape | backend/app/services/text_chunker.py:361-411 | one chunk per group (ceil(n/rpc) of them), chunk k numbered index+k, flagged as a table chunk with start/end 0 and its group's text |
| TextChunker.TableStep | backend/app/services/text_chunker.py:361-411 | one loop step appends the group's chunk |
| TextChunker.TableStepFails | backend/app/services/text_chunker.py:361-400 | a group whose text fails makes the whole call fail |
| TextChunker.TableRowLines | backend/app/services/text_chunker.py:377-383 | every data-row line has exactly one entry per header: the row's stripped cells, padded with "" or cut to the header width |
| TextChunker.RowCells | backend/app/services/text_chunker.py:378-382 | the cells are exactly width long, stripped, with "" padding |
| TextChunker.RowTexts | backend/app/services/text_chunker.py:377-383 | one line per row, each the " \| " join of its padded cells |
| TextChunker.Attributes | backend/app/services/text_chunker.py:389-398 | one "header=cell" per non-empty cell after the first column, never more than headers or cells |
| TextChunker.StripAll | backend/app/services/text_chunker.py:354 | each header stripped, in order |
| TextChunker.Repeat | backend/app/services/text_chunker.py:375 | "-" repeated len(header_text) times |
| TextChunker.ParseTextTable | backend/app/services/text_chunker.py:523-555 | returns exactly TableRowsOf over the lines of the stripped text |
| TextChunker.TableRowsWellFormed | backend/app/services/text_chunker.py:536-553 | never an empty row, never more rows than lines |
| TextChunker.PipeCellsClean | backend/app/services/text_chunker.py:542-544 | a line with '\|' is read as non-empty cells free of '\|' |
| TextChunker.LineRow | backend/app/services/text_chunker.py:537-553 | a line yields at most one row, never an empty one |
| TextChunker.SplitOnSpaceRuns | backend/app/services/text_chunker.py:550 | re.split on runs of two or more spaces yields at least one piece |
| TextChunker.NonEmptyOnly | backend/app/services/text_chunker.py:544 | keeps exactly the non-empty stripped cells |
| RateLimiter.NewWindow | backend/app/services/rate_limiter.py:77-88 | a new counter has the given limit, a 60-second span and empty deques |
| RateLimiter.Cleaned | backend/app/services/rate_limiter.py:91-97 | cleanup keeps limit and span, never adds entries, and keeps timestamps and amounts paired |
| RateLimiter.PopOldest | backend/app/services/rate_limiter.py:94-97 | one pop drops exactly one timestamp, together with its amount |
| RateLimiter.CleanedDropsExpired | backend/app/services/rate_limiter.py:91-97 | cleanup removes a prefix: every removed timestamp is older than now − span, the oldest kept one is not, and the amounts lose the same prefix |
| RateLimiter.CleanedKeepsOnlyLive | backend/app/services/rate_limiter.py:91-97 | with ordered timestamps every surviving entry lies inside the window |
| RateLimiter.CleanedIdempotent | backend/app/services/rate_limiter.py:91-97 | a second cleanup at the same instant removes nothing |
| RateLimiter.Total | backend/app/services/rate_limiter.py:114 | the current total is the sum of the amounts when they are paired with the timestamps |
| RateLimiter.Acquired | backend/app/services/rate_limiter.py:99-121 | after try_acquire the counter is cleaned, and holds one more entry (now, count) exactly when admitted |
| RateLimiter.AcquiredAfterCleanup | backend/app/services/rate_limiter.py:111-121 | try_acquire after a cleanup at the same instant behaves as try_acquire |
| RateLimiter.AcquiredConsumes | backend/app/services/rate_limiter.py:114-121 | an admitted amount is added to the live total, a rejected one changes nothing, so a counter within its limit stays within it |
| RateLimiter.AcquiredKeepsOrder | backend/app/services/rate_limiter.py:119-120 | appending at a time no earlier than the newest entry keeps the timestamps ordered |
| RateLimiter.RecordAfterCheck | backend/app/services/rate_limiter.py:280-310 | a counter the status check found room in admits the amount after that check's cleanup, and its live total grows by it |
| RateLimiter.RemainingAt | backend/app/services/rate_limiter.py:123-130 | remaining is max(0, limit − live total) |
| RateLimiter.ResetTime | backend/app/services/rate_limiter.py:132-137 | the oldest timestamp plus the span, or now for an empty counter |
| RateLimiter.ResetTimeNotPast | backend/app/services/rate_limiter.py:132-137 | after cleanup at now the reset time is never in the past |
| RateLimiter.Cleared | backend/app/services/rate_limiter.py:139-143 | reset empties both deques and keeps limit and span |
| RateLimiter.RemainingAfterReset | backend/app/services/rate_limiter.py:139-143 | after reset the whole limit is available again |
| RateLimiter.SlidingWindowCounter.constructor | backend/app/services/rate_limiter.py:77-88 | a fresh counter with empty deques |
| RateLimiter.SlidingWindowCounter.Cleanup | backend/app/services/rate_limiter.py:91-97 | the new state is Cleaned of the old one |
| RateLimiter.SlidingWindowCounter.TryAcquire | backend/app/services/rate_limiter.py:99-121 | returns whether the cleaned counter has room, and the new state is Acquired |
| RateLimiter.SlidingWindowCounter.GetRemaining | backend/app/services/rate_limiter.py:123-130 | returns RemainingAt and keeps the cleanup it performed |
| RateLimiter.SlidingWindowCounter.GetResetTime | backend/app/services/rate_limiter.py:132-137 | returns ResetTime and changes nothing |
| RateLimiter.SlidingWindowCounter.Reset | backend/app/services/rate_limiter.py:139-143 | the new state is Cleared of the old one |
| RateLimiter.UserWindow | backend/app/services/rate_limiter.py:184-204 | the user's counter, or a fresh one with the per-user limit |
| RateLimiter.Min4 | backend/app/services/rate_limiter.py:243-249 | the least of the four reset times |
| RateLimiter.StatusOf | backend/app/services/rate_limiter.py:206-257 | remaining requests and tokens are the minima of global and user remaining; limited iff no request is left or the positive estimate exceeds the tokens left; retry_after is 0 unless limited |
| RateLimiter.RetryAfterIsEarliestReset | backend/app/services/rate_limiter.py:241-249 | a limited caller waits until the earliest counter frees up, never a negative time |
| RateLimiter.UnlimitedIsAdmitted | backend/app/services/rate_limiter.py:280-310 | at one instant, a request the status check lets through is admitted by all four counters |
| RateLimiter.RateLimiter.constructor | backend/app/services/rate_limiter.py:154-176 | the global counters use the configured limits and there are no user counters yet |
| RateLimiter.RateLimiter.GetUserLimiter | backend/app/services/rate_limiter.py:184-204 | creates the user's counter of the requested kind on first use and changes nothing else |
| RateLimiter.RateLimiter.CheckRateLimit | backend/app/services/rate_limiter.py:206-257 | the status is StatusOf the counters before the call; the counters are left cleaned and the user's counters created |
| RateLimiter.RateLimiter.Acquire | backend/app/services/rate_limiter.py:259-312 | with wait=False: RateLimitExceeded(retry_after) exactly when the status is limited, and then nothing is recorded; otherwise one request and the positive estimate are recorded on global and user counters |
| RateLimiter.RateLimiter.Record | backend/app/services/rate_limiter.py:297-310 | the consuming half: global and user counters are exactly Acquired with one request and the positive estimate |
| RateLimiter.RateLimiter.Reset | backend/app/services/rate_limiter.py:370-388 | a non-empty user id resets only that user's existing counters; no id resets the globals and drops every user counter |
| ChatHistory.RoleOf | backend/app/services/chat_history_manager.py:31-35 | MessageRole(s) maps "user" and "assistant" to members and keeps any other string raw; its value is always s |
| ChatHistory.ToDict | backend/app/services/chat_history_manager.py:50-67 | to_dict holds the five base keys with the message's values, and no keys besides message_id, citations, usage and model |
| ChatHistory.ToDictOptional | backend/app/services/chat_history_manager.py:59-66 | message_id, citations, usage and model are each present exactly when the field is truthy, and then hold it |
| ChatHistory.FirstHashEnds | backend/app/services/chat_history_manager.py:140-142 | in a sort key, the first '#' after "CONV#" ends a '#'-free conversation id |
| ChatHistory.SkInjective | backend/app/services/chat_history_manager.py:140-142 | message sort keys determine conversation and timestamp when ids hold no '#' |
| ChatHistory.MessageSkIsNotMeta | backend/app/services/chat_history_manager.py:140-146 | a message sort key never equals a conversation-metadata sort key |
| ChatHistory.SkAmbiguousWithHash | backend/app/services/chat_history_manager.py:140-142 | with a '#' in the conversation id two different messages share a sort key |
| ChatHistory.MessageItem | backend/app/services/chat_history_manager.py:177-198 | the put item has sk = CONV#{c}#MSG#{t} and holds citations, usage and model exactly when truthy |
| ChatHistory.MessageItemKeys | backend/app/services/chat_history_manager.py:177-198 | the item holds the seven base attributes and at most the three optional ones |
| ChatHistory.MessageItemStrings | backend/app/services/chat_history_manager.py:177-186 | the string attributes of the item, as the parser reads them |
| ChatHistory.MessageItemExtras | backend/app/services/chat_history_manager.py:188-198 | usage is stored as a map of three numbers, citations as a JSON string |
| ChatHistory.SaveMessage | backend/app/services/chat_history_manager.py:148-220 | the put fails and the ClientError is re-raised, or the message comes back with the generated id and timestamp and the arguments as passed |
| ChatHistory.SaveUserMessage | backend/app/services/chat_history_manager.py:222-234 | a user message without citations, usage or model |
| ChatHistory.SaveAssistantMessage | backend/app/services/chat_history_manager.py:236-254 | an assistant message carrying the given citations, usage and model |
| ChatHistory.DeserializeJson | backend/app/services/chat_history_manager.py:464-470 | a decode error gives None; otherwise the decoded value, with null read as None |
| ChatHistory.ParseUsage | backend/app/services/chat_history_manager.py:430-438 | the rebuilt usage always has exactly the three counters |
| ChatHistory.UsageTriple | backend/app/services/chat_history_manager.py:432-438 | the three counters as they read back, with missing ones 0 |
| ChatHistory.ParseMessage | backend/app/services/chat_history_manager.py:422-457 | missing attributes take their defaults (role user, content "", user anonymous); an unknown role stays raw; a bad usage number raises |
| ChatHistory.UsageCounterOfAttr | backend/app/services/chat_history_manager.py:190-195 | a stored usage counter reads back as the number written |
| ChatHistory.ReadBackOfCanonical | backend/app/services/chat_history_manager.py:188-198 | a message whose optional fields are already in stored form reads back unchanged |
| ChatHistory.SavedMessageReadsBack | backend/app/services/chat_history_manager.py:177-220 | the saved item parses to the returned message, up to the falsy optional fields the save drops |
| ChatHistory.ParseAll | backend/app/services/chat_history_manager.py:288-290 | one message per item, in order; the first unreadable item raises |
| ChatHistory.ParseAllEach | backend/app/services/chat_history_manager.py:288-290 | each parsed message is its item's parse |
| ChatHistory.ParseAllAppend | backend/app/services/chat_history_manager.py:288-290 | parsing one more item appends its message, or fails with it |
| ChatHistory.PrefixErrorSticks | backend/app/services/chat_history_manager.py:288-290 | an unreadable item makes the whole read fail |
| ChatHistory.GetConversationHistory | backend/app/services/chat_history_manager.py:256-296 | the loop returns exactly ParseAll of the queried items |
| ChatHistory.ContextOf | backend/app/services/chat_history_manager.py:322-326 | one role/content pair per message, in order |
| ChatHistory.HistoryForContext | backend/app/services/chat_history_manager.py:298-326 | succeeds iff every item parses; then one role/content pair per item in query order |
| ChatHistory.Snippet | backend/app/services/chat_history_manager.py:371 | content unchanged up to 100 characters, else its first 100 plus "..." |
| ChatHistory.LastMessageOf | backend/app/services/chat_history_manager.py:367-374 | the summary of a conversation's first item: snippet, time and role of the parsed message |
| ChatHistory.AppendSummary | backend/app/services/chat_history_manager.py:366-374 | keeping a new conversation's summary preserves the grouping invariant |
| ChatHistory.SkipItem | backend/app/services/chat_history_manager.py:364-366 | skipping an item without id or of a seen conversation preserves the grouping invariant |
| ChatHistory.SeenIdsGrow | backend/app/services/chat_history_manager.py:364-366 | the ids seen so far only grow |
| ChatHistory.GroupedSound | backend/app/services/chat_history_manager.py:355-377 | distinct conversations, each summarised from its first item, at most max(limit, 1) of them, and all of them when fewer were kept |
| ChatHistory.GroupedSoundInsert | backend/app/services/chat_history_manager.py:366-376 | the step that keeps a new conversation |
| ChatHistory.BrokenStateGrows | backend/app/services/chat_history_manager.py:375-376 | a loop that stopped early still holds distinct first-item summaries |
| ChatHistory.IdsOfAppend | backend/app/services/chat_history_manager.py:366-367 | appending a summary adds its conversation id |
| ChatHistory.ListConversations | backend/app/services/chat_history_manager.py:328-385 | returns Grouped over the query's items and its last evaluated key, and the result is Listed |
| ChatHistory.GroupConversations | backend/app/services/chat_history_manager.py:362-375 | the loop yields Grouped: a failing parse of a new conversation's first item, or the summaries up to the limit |
| ChatHistory.DeletedCount | backend/app/services/chat_history_manager.py:404-418 | never counts more than the fetched messages |
| ChatHistory.AllDeletedIff | backend/app/services/chat_history_manager.py:404-418 | every fetched message counts exactly when every delete succeeded |
| ChatHistory.DeleteConversation | backend/app/services/chat_history_manager.py:387-420 | succeeds iff every fetched item parses; then counts the successful deletes, at most one per item |
| ChatHistoryCache.OldestExists | backend/app/services/chat_history_manager.py:527-531 | a non-empty cache has an oldest entry to evict |
| ChatHistoryCache.EvictionKeepsCapacity | backend/app/services/chat_history_manager.py:524-531 | evicting the oldest and storing keeps the cache within capacity and never grows it |
| ChatHistoryCache.InsertKeepsCapacity | backend/app/services/chat_history_manager.py:524-531 | storing into a non-full cache stays within capacity |
| ChatHistoryCache.InvalidatedShrinks | backend/app/services/chat_history_manager.py:533-537 | invalidation never grows the cache |
| ChatHistoryCache.InvalidatedKeepsCapacity | backend/app/services/chat_history_manager.py:533-537 | a cache within max_cache_size stays within it after invalidation |
| ChatHistoryCache.InvalidationCoversConversation | backend/app/services/chat_history_manager.py:533-537 | invalidation drops the conversation's cached history for every max_messages |
| ChatHistoryCache.InvalidationKeepsOthers | backend/app/services/chat_history_manager.py:533-537 | invalidation keeps another conversation's entries when neither id holds ':' |
| ChatHistoryCache.CachedChatHistoryManager.constructor | backend/app/services/chat_history_manager.py:486-505 | an empty cache with the given TTL and size |
| ChatHistoryCache.CachedChatHistoryManager.GetFromCache | backend/app/services/chat_history_manager.py:507-522 | returns the entry's data exactly when it exists and is younger than the TTL |
| ChatHistoryCache.CachedChatHistoryManager.SetCache | backend/app/services/chat_history_manager.py:524-531 | a full cache loses its oldest entry first, even when the key is present; min() on an empty cache with max size ≤ 0 raises |
| ChatHistoryCache.CachedChatHistoryManager.InvalidateCache | backend/app/services/chat_history_manager.py:533-539 | every key with the conversation's prefix goes and nothing else changes |
| ChatHistoryCache.CachedChatHistoryManager.GetHistoryForContext | backend/app/services/chat_history_manager.py:541-571 | a valid cache entry is returned as is; otherwise the history is read, cached and returned |
| ChatHistoryCache.CachedChatHistoryManager.SaveMessage | backend/app/services/chat_history_manager.py:573-577 | delegates, then invalidates the conversation; a failed put leaves the cache alone |
| ChatHistoryCache.CachedChatHistoryManager.SaveUserMessage | backend/app/services/chat_history_manager.py:579-583 | delegates, then invalidates the conversation |
| ChatHistoryCache.CachedChatHistoryManager.SaveAssistantMessage | backend/app/services/chat_history_manager.py:585-589 | delegates, then invalidates the conversation |
| ChatHistoryCache.CachedChatHistoryManager.DeleteConversation | backend/app/services/chat_history_manager.py:591-595 | fails exactly when a stored item does not parse; otherwise returns the delegate's count of deleted messages (DeletedCount) and drops every cached page of the conversation; a failure leaves the cache as it was |
| DocumentStatusManager.StatusOf | backend/app/services/document_status_manager.py:18-23 | DocumentStatus(s) is a member exactly when s is one of the four values, and that member's value is s |
| DocumentStatusManager.StatusRoundTrip | backend/app/services/document_status_manager.py:18-23 | every member's value reads back as that member |
| DocumentStatusManager.TransitionTableShape | backend/app/services/document_status_manager.py:28-33 | EMBEDDING_DONE has no successor and no status lists itself |
| DocumentStatusManager.EveryStatusCanFinish | backend/app/services/document_status_manager.py:28-33 | every status reaches EMBEDDING_DONE along the table in at most three steps, FAILED via its retry |
| DocumentStatusManager.PlainOf | backend/app/services/document_status_manager.py:302-308 | S, N and BOOL attributes are kept and every other type dropped |
| DocumentStatusManager.ParsedItem | backend/app/services/document_status_manager.py:299-309 | the plain dict has exactly the readable attributes, each with its plain value |
| DocumentStatusManager.ParseItem | backend/app/services/document_status_manager.py:299-309 | the loop returns ParseItemSpec, failing on an unreadable number |
| DocumentStatusManager.CreateDocument | backend/app/services/document_status_manager.py:80-125 | the conditional put fails exactly on an existing record; otherwise the record has five keys and status UPLOADED |
| DocumentStatusManager.CreatedDocumentReadsBack | backend/app/services/document_status_manager.py:80-125 | the returned record is the stored item read back, less its sort key |
| DocumentStatusManager.GetDocument | backend/app/services/document_status_manager.py:221-243 | returns DocumentSpec: None for a missing or empty item, else the parsed item |
| DocumentStatusManager.CheckTransitionCases | backend/app/services/document_status_manager.py:157-177 | the check proceeds, returns the record unchanged for a same-status write, raises "Invalid status transition" for a known status off the table, or re-raises the enum's ValueError for an unknown status string holding that phrase; each case exactly characterised |
| DocumentStatusManager.PhraseStatusReraised | backend/app/services/document_status_manager.py:160-175 | a stored status that is "Invalid status transition" itself makes the check re-raise rather than write |
| DocumentStatusManager.ProceedFollowsTable | backend/app/services/document_status_manager.py:157-177 | a write that passed the check follows the table, unless the stored status was unknown or absent |
| DocumentStatusManager.ClausesOf | backend/app/services/document_status_manager.py:180-203 | one "#name = :value" clause per assignment, in order |
| DocumentStatusManager.AppendAssignment | backend/app/services/document_status_manager.py:190-203 | appending an assignment adds its clause and binds its name and value placeholders |
| DocumentStatusManager.NamesBound | backend/app/services/document_status_manager.py:180-214 | every name placeholder used is bound to its attribute |
| DocumentStatusManager.ValuesBound | backend/app/services/document_status_manager.py:185-215 | every value placeholder used is bound to its value |
| DocumentStatusManager.NothingElseBound | backend/app/services/document_status_manager.py:180-215 | no placeholder is bound that no clause uses |
| DocumentStatusManager.AssignmentsDistinct | backend/app/services/document_status_manager.py:180-203 | the clauses bind distinct placeholders |
| DocumentStatusManager.AssignmentsOptional | backend/app/services/document_status_manager.py:190-203 | the update sets page_count, chunk_count and error_message exactly when given |
| DocumentStatusManager.AddAssignment | backend/app/services/document_status_manager.py:190-203 | one append extends the clauses, names and values together |
| DocumentStatusManager.BuildUpdate | backend/app/services/document_status_manager.py:179-217 | the request built step by step equals RequestOf the assignments |
| DocumentStatusManager.Write | backend/app/services/document_status_manager.py:207-219 | the update_item call and the parse of its ALL_NEW attributes |
| DocumentStatusManager.UpdateStatus | backend/app/services/document_status_manager.py:127-219 | returns exactly UpdateSpec: validation (including the re-raised enum error), then the write |
| DocumentStatusManager.WrittenFollowsTable | backend/app/services/document_status_manager.py:157-177 | with validation on, a record whose status is known is written only along the table, and never one whose unknown status string holds "Invalid status transition" |
| DocumentStatusManager.WrittenSetsStatus | backend/app/services/document_status_manager.py:180-188 | every write sets status to the new value and updated_at to the timestamp |
| BedrockRetry.ClassifyError | backend/app/services/bedrock_retry.py:208-261 | a ClientError keeps its code and is retryable exactly when the code is in RETRYABLE_ERROR_CODES; listed non-retryable codes never retry; BotoCoreError is a retryable SERVICE_UNAVAILABLE named by its class; TimeoutError is a retryable TIMEOUT |
| BedrockRetry.UnlistedClientCodeIsUnknown | backend/app/services/bedrock_retry.py:249-261 | a ClientError code outside both sets is UNKNOWN and not retried |
| BedrockRetry.ModelNotReadyIsUnknown | backend/app/services/bedrock_retry.py:49-55 | ModelNotReadyException is listed as non-retryable but is classified UNKNOWN |
| BedrockRetry.Backoff | backend/app/services/bedrock_retry.py:69-72 | the delay before jitter is min(base·exp^attempt, max_delay) |
| BedrockRetry.GetDelay | backend/app/services/bedrock_retry.py:67-75 | without jitter the delay is the backoff and never exceeds max_delay |
| BedrockRetry.JitterBounds | backend/app/services/bedrock_retry.py:73-74 | jitter keeps the delay within 0.5 to 1.5 times the backoff |
| BedrockRetry.BackoffMonotone | backend/app/services/bedrock_retry.py:69-72 | without jitter the delay never shrinks from one attempt to the next |
| BedrockRetry.DefaultBackoffs | backend/app/services/bedrock_retry.py:58-72 | the default configuration waits 1, 2, 4, 8, 16, 32 and then 60 seconds |
| BedrockRetry.Construct | backend/app/services/bedrock_retry.py:81-94 | the error keeps its class, message, code and original exception |
| BedrockRetry.ClassFor | backend/app/services/bedrock_retry.py:283-292 | the subclass chosen for a type carries that type, BedrockError for UNKNOWN |
| BedrockRetry.CreateBedrockError | backend/app/services/bedrock_retry.py:264-298 | the error carries the classified type and code, the original exception and its message; its retryable flag is the one its class fixes |
| BedrockRetry.CreatedRetryableAgrees | backend/app/services/bedrock_retry.py:237-238 | the raised error is retryable exactly when the classification was, except for ModelStreamErrorException |
| BedrockRetry.ToDict | backend/app/services/bedrock_retry.py:96-103 | exactly the four keys error, error_type, error_code and retryable |
| BedrockRetry.UserMessage | backend/app/services/bedrock_retry.py:105-107 | the table's text for the type, else the error's own message |
| BedrockRetry.EveryTypeHasMessage | backend/app/services/bedrock_retry.py:183-205 | every error type has a non-empty user message |
| BedrockRetry.RetryFrom | backend/app/services/bedrock_retry.py:342-383 | from attempt k on: at least one call while k ≤ max_retries, at most max_retries+1−k calls, and no callbacks when none is given |
| BedrockRetry.WithRetry | backend/app/services/bedrock_retry.py:337-385 | the loop's outcome, calls and callbacks equal RetryFrom from attempt 0 |
| BedrockRetry.CallsBounded | backend/app/services/bedrock_retry.py:342 | at most max_retries+1 calls, at least one, none when max_retries < 0 |
| BedrockRetry.SuccessReturnsImmediately | backend/app/services/bedrock_retry.py:343-344 | a call that returns ends the wrapper at once with its value |
| BedrockRetry.NonRetryableOneCall | backend/app/services/bedrock_retry.py:356-359 | a non-retryable error raises its BedrockError after one call, with no callback |
| BedrockRetry.PersistentErrorExhaustsRetries | backend/app/services/bedrock_retry.py:342-374 | a persistently retryable error makes exactly max_retries+1 calls, fires the callback for each earlier attempt in order, and raises the wrapped last error |
| BedrockRetry.PersistentBedrockError | backend/app/services/bedrock_retry.py:342-374 | the same with the source's classifier |
| BedrockRetry.SuccessAfterRetries | backend/app/services/bedrock_retry.py:342-374 | k retryable failures then a success return the value after k+1 calls with one callback per failure |
| EmbeddingsService.Attempts | backend/app/services/embeddings_service.py:124-156 | the loop from a given attempt never makes fewer calls than it already made |
| EmbeddingsService.Run | backend/app/services/embeddings_service.py:124-156 | the loop makes at least one call |
| EmbeddingsService.RunFinishes | backend/app/services/embeddings_service.py:124-156 | every run ends with a decided reply or after all five tries, with one sleep per retried reply |
| EmbeddingsService.FirstUnretriedDecides | backend/app/services/embeddings_service.py:124-152 | the first reply the loop does not retry decides it, after k+1 calls |
| EmbeddingsService.AllRetriedExhausts | backend/app/services/embeddings_service.py:124-156 | a loop whose every reply is retried gives up after the fifth |
| EmbeddingsService.BatchOutcome | backend/app/services/embeddings_service.py:110-156 | a batch fails only by re-raising an exception, never with a result |
| EmbeddingsService.EmbedBatchWithRetry | backend/app/services/embeddings_service.py:110-156 | the loop's outcome, calls and sleeps equal the specification run |
| EmbeddingsService.ClientErrorNotRetried | backend/app/services/embeddings_service.py:140-143 | a non-throttling ClientError on the first try is raised after that one call |
| EmbeddingsService.ThrottledFiveTimes | backend/app/services/embeddings_service.py:133-156 | five throttled replies: five calls, sleeps of 1, 2, 4, 8 and 16 seconds, and the fifth error re-raised |
| EmbeddingsService.BatchOf | backend/app/services/embeddings_service.py:98 | the per-batch retry loop as a function of the batch |
| EmbeddingsService.EmbedAll | backend/app/services/embeddings_service.py:93-108 | succeeds iff every batch succeeds; a failure is some batch's failure |
| EmbeddingsService.EmbedAllAppend | backend/app/services/embeddings_service.py:96-99 | one more batch extends the embeddings or fails with its error |
| EmbeddingsService.EmbedAllErrSticks | backend/app/services/embeddings_service.py:96-99 | after a failed batch nothing later is sent |
| EmbeddingsService.EmbedAllConcatenates | backend/app/services/embeddings_service.py:96-99 | when every batch succeeds, the embeddings are per batch in batch order |
| EmbeddingsService.EmbedTexts | backend/app/services/embeddings_service.py:80-108 | the result is EmbedAll over batches of 25; the batches sent are a prefix of all batches, and all of them on success |
| EmbeddingsService.SixtyTextsThreeBatches | backend/app/services/embeddings_service.py:43-97 | sixty texts go out as batches of 25, 25 and 10 |
| EmbeddingsService.EmbedText | backend/app/services/embeddings_service.py:67-78 | the first embedding of the one batch, or [] when there is none; failures propagate |
| EmbeddingsService.QueryOutcome | backend/app/services/embeddings_service.py:193-234 | "Failed to embed query" exactly when all five tries were throttled |
| EmbeddingsService.EmbedQuery | backend/app/services/embeddings_service.py:193-234 | the loop's outcome, calls and sleeps equal the specification run |
| EmbeddingsService.QueryThrottledFiveTimes | backend/app/services/embeddings_service.py:210-234 | a query throttled every time is tried five times and then fails |
| EmbeddingsService.QueryOtherErrorNotRetried | backend/app/services/embeddings_service.py:224-232 | any other exception is raised after one call |
| EmbeddingsService.HealthCheck | backend/app/services/embeddings_service.py:236-244 | healthy iff embed_text returns a 1024-long vector |
| EmbeddingService.Truncate | backend/app/services/embedding_service.py:45-46 | cut to 2000 characters exactly when longer, a prefix in any case |
| EmbeddingService.TextRequest | backend/app/services/embedding_service.py:44-51 | the body holds the one text, cut, and the input type |
| EmbeddingService.EmbedText | backend/app/services/embedding_service.py:32-71 | the first embedding of a successful answer; None when the call failed or returned none |
| EmbeddingService.BatchRequest | backend/app/services/embedding_service.py:90-100 | one cut text per batch text, in order |
| EmbeddingService.BatchResult | backend/app/services/embedding_service.py:96-116 | the answer's embeddings, or one None per text when the call failed |
| EmbeddingService.EmbedTexts | backend/app/services/embedding_service.py:73-118 | the result concatenates each batch's result, and one body is sent per batch of 96 |
| EmbeddingService.NoTextsNoCalls | backend/app/services/embedding_service.py:84-85 | no texts: no result and no call |
| EmbeddingService.RequestsWithinLimits | backend/app/services/embedding_service.py:90-94 | every body holds at most 96 texts of at most 2000 characters |
| EmbeddingService.RequestsCoverTexts | backend/app/services/embedding_service.py:90-100 | the bodies together hold every text, cut, once and in order |
| EmbeddingService.AlignedWhenAnswersComplete | backend/app/services/embedding_service.py:90-118 | when every answer holds one embedding per text, the result has one entry per input text |
| EmbeddingService.AllFailedAllNone | backend/app/services/embedding_service.py:113-116 | when every call fails, the result is one None per text |
| EmbeddingService.Callback | backend/app/services/embedding_service.py:121-133 | the callback is embed_text with the default input type |
| Bm25Search.FreqOf | backend/app/services/bm25_search.py:137-145 | doc_freq has the index's terms, each with the number of chunks listed under it |
| Bm25Search.Count | backend/app/services/bm25_search.py:134 | Counter(tokens)[t] is positive exactly for tokens that occur |
| Bm25Search.Distinct | backend/app/services/bm25_search.py:134-137 | the counter's keys are exactly the tokens |
| Bm25Search.DistinctKeysUnique | backend/app/services/bm25_search.py:134-137 | each key of the counter occurs once |
| Bm25Search.PostAllAt | backend/app/services/bm25_search.py:137-145 | after posting, a listed term holds its old entries plus the chunk with its count; every other term is untouched |
| Bm25Search.AddOneIs | backend/app/services/bm25_search.py:99-145 | add_document stores the chunk, its length, one more doc_count and its postings |
| Bm25Search.AddOneStored | backend/app/services/bm25_search.py:118-145 | every posting names a stored chunk |
| Bm25Search.AddOneCount | backend/app/services/bm25_search.py:126-127 | doc_count bounds the number of stored chunks |
| Bm25Search.AddOnePreservesValid | backend/app/services/bm25_search.py:99-145 | doc_freq[t] stays the number of chunks under t, and doc_count bounds the stored chunks |
| Bm25Search.AddNewKeepsExact | backend/app/services/bm25_search.py:137-145 | adding a new chunk id lists it exactly under its own tokens with their counts |
| Bm25Search.AddKeepsPosted | backend/app/services/bm25_search.py:137-145 | every stored chunk stays listed under each of its tokens |
| Bm25Search.AddNewKeepsAccurate | backend/app/services/bm25_search.py:99-145 | adding a new chunk id keeps the index in exact agreement with the stored tokens |
| Bm25Search.ReAddLeavesStalePosting | backend/app/services/bm25_search.py:118-145 | re-adding a chunk with other text leaves it listed under a term it no longer holds, and counts it twice in doc_count (2) though one chunk is stored |
| Bm25Search.Candidates | backend/app/services/bm25_search.py:228-231 | the chunks listed under at least one query token |
| Bm25Search.CandidateStored | backend/app/services/bm25_search.py:235-239 | a candidate of a valid index is a stored chunk |
| Bm25Search.CollectCandidates | backend/app/services/bm25_search.py:228-231 | the loop gathers exactly the candidates |
| Bm25Search.ScoreCandidates | backend/app/services/bm25_search.py:234-246 | every kept result is a candidate scoring at least the threshold, with its stored text, document and metadata, every such candidate is kept, and no chunk is kept twice |
| Bm25Search.RankedHits | backend/app/services/bm25_search.py:249 | sorting keeps exactly the same hits, in score order |
| Bm25Search.BM25Index.constructor | backend/app/services/bm25_search.py:47-68 | an empty index |
| Bm25Search.BM25Index.AddDocument | backend/app/services/bm25_search.py:99-145 | the new state is AddOne of the old one and the index stays valid |
| Bm25Search.BM25Index.AddDocuments | backend/app/services/bm25_search.py:147-165 | each document in order; a missing chunk id becomes str(len(documents)) at that point |
| Bm25Search.BM25Index.Search | backend/app/services/bm25_search.py:205-251 | [] for a query without tokens; otherwise the hits sorted by score, largest first, one per chunk, cut to top_k |
| Bm25Search.BM25Index.Clear | backend/app/services/bm25_search.py:253-262 | every map emptied and doc_count back to 0 |
| Bm25Search.PostTerms | backend/app/services/bm25_search.py:137-145 | the loop over the counter's items gives PostAll, and doc_freq stays FreqOf the index |
| Bm25Search.FreqStep | backend/app/services/bm25_search.py:142-145 | listing a chunk under a term raises its count exactly when it was not listed yet |
| Bm25Search.VectorKeys | backend/app/services/bm25_search.py:327-328 | the key of each vector result: chunk_id, else id, else its position |
| Bm25Search.ResultIds | backend/app/services/bm25_search.py:326 | the chunk id of each BM25 result, in order |
| Bm25Search.Ranks | backend/app/services/bm25_search.py:326-328 | the rank map has exactly the listed keys |
| Bm25Search.RanksLast | backend/app/services/bm25_search.py:326-328 | a repeated key keeps the rank of its last occurrence |
| Bm25Search.LastWins | backend/app/services/bm25_search.py:353-355 | the result map has exactly the listed keys |
| Bm25Search.LastWinsLast | backend/app/services/bm25_search.py:353-355 | the result kept for a key is the one its rank names |
| Bm25Search.Get | backend/app/services/bm25_search.py:367-368 | dict.get returns the value exactly for present keys |
| Bm25Search.RrfScore | backend/app/services/bm25_search.py:336-344 | 0 for a chunk in neither list |
| Bm25Search.RrfScoreNonNegative | backend/app/services/bm25_search.py:336-344 | with non-negative weights the fused score is never negative |
| Bm25Search.RrfBetterRank | backend/app/services/bm25_search.py:339-344 | a better rank in one list, with the other unchanged, gives a higher score |
| Bm25Search.HitOf | backend/app/services/bm25_search.py:359-380 | the result carries the chunk id, its combined score and both ranks |
| Bm25Search.HitPrefersBm25 | backend/app/services/bm25_search.py:359-369 | a chunk in the BM25 list takes its text, document id and metadata from there |
| Bm25Search.AllChunks | backend/app/services/bm25_search.py:331 | the union of both key sets |
| Bm25Search.CombineScores | backend/app/services/bm25_search.py:334-346 | every chunk of either list is scored with its RRF score, and no chunk twice |
| Bm25Search.RrfOf | backend/app/services/bm25_search.py:336-344 | the score adds each list's weighted reciprocal rank where the chunk has one |
| Bm25Search.RankedScores | backend/app/services/bm25_search.py:349 | sorting keeps the same scored chunks, largest score first |
| Bm25Search.Merge | backend/app/services/bm25_search.py:326-388 | rank maps, combined scores, sort and the first top_k results |
| Bm25Search.MergedShape | backend/app/services/bm25_search.py:349-384 | at most top_k results, each a chunk of one of the lists, largest combined score first |
| Bm25Search.MergedKeepsBest | backend/app/services/bm25_search.py:349-357 | a chunk left out scores no higher than any returned one |
| Bm25Search.MergedKeepsAll | backend/app/services/bm25_search.py:331-357 | when no more than top_k chunks are found, every chunk of either list is returned |
| Bm25Search.HybridRetriever.constructor | backend/app/services/bm25_search.py:276-298 | keeps the index, the vector search and the weights |
| Bm25Search.HybridRetriever.Search | backend/app/services/bm25_search.py:300-388 | the merged BM25 list is the first bm25_top_k of the full BM25 ranking (every candidate scoring at least 0, one per chunk, largest score first; [] for a query without tokens), merged with the vector search's vector_top_k hits as Merged states |
| Bm25Search.MergedDistinct | backend/app/services/bm25_search.py:334-384 | no chunk is returned twice |
| PdfExtractor.DropRun | backend/app/services/pdf_extractor.py:213-216 | the input without its leading run of one character: a suffix, not starting with it, the cut part made only of it |
| PdfExtractor.Without | backend/app/services/pdf_extractor.py:213-216 | every character other than c, in order |
| PdfExtractor.WithoutRun | backend/app/services/pdf_extractor.py:213-216 | a run of c contributes nothing once c is removed |
| PdfExtractor.CollapseSpaces | backend/app/services/pdf_extractor.py:213 | re.sub(' +', ' '): no two spaces in a row remain and the first character is kept |
| PdfExtractor.CollapseSpacesKeepsText | backend/app/services/pdf_extractor.py:213 | collapsing spaces keeps every other character, in order |
| PdfExtractor.CollapseNewlines | backend/app/services/pdf_extractor.py:216 | re.sub('\n{3,}', '\n\n'): no three newlines in a row remain |
| PdfExtractor.CollapseNewlinesKeepsText | backend/app/services/pdf_extractor.py:216 | collapsing newline runs keeps every other character, in order |
| PdfExtractor.ReplaceChar | backend/app/services/pdf_extractor.py:231-234 | every character of the result is one of the input other than c, or of the replacement |
| PdfExtractor.ReplaceEach | backend/app/services/pdf_extractor.py:230-231 | the replacements in turn introduce only characters of their replacement texts |
| PdfExtractor.ReplaceEachRemoves | backend/app/services/pdf_extractor.py:223-231 | after all replacements none of the ligatures is left |
| PdfExtractor.UnstrippedClean | backend/app/services/pdf_extractor.py:213-234 | before the final strip no NUL and no ligature is left |
| PdfExtractor.CleanTextClean | backend/app/services/pdf_extractor.py:202-237 | "" for "", and any result has no leading or trailing whitespace, no NUL and none of the five ligatures |
| PdfExtractor.Failed | backend/app/services/pdf_extractor.py:69-76 | a failure returns no pages, no text, no metadata and only its errors |
| PdfExtractor.NonEmptyTexts | backend/app/services/pdf_extractor.py:106 | the non-empty page texts, at most one per page |
| PdfExtractor.FullTextLength | backend/app/services/pdf_extractor.py:106-107 | the full text is as long as the page texts plus two characters per separator, and "" when all pages are empty |
| PdfExtractor.PageCount | backend/app/services/pdf_extractor.py:81-84 | every page without a limit, otherwise min(limit, total), and nothing for a negative limit |
| PdfExtractor.PageOf | backend/app/services/pdf_extractor.py:85-103 | page i+1 with its text (cleaned when asked) and exact count, or empty text when extraction raised |
| PdfExtractor.PageErrors | backend/app/services/pdf_extractor.py:97-98 | at most one error per extracted page |
| PdfExtractor.PypdfPages | backend/app/services/pdf_extractor.py:84-103 | one entry per extracted page, in order |
| PdfExtractor.ExtractTextFromPdf | backend/app/services/pdf_extractor.py:45-126 | returns exactly PypdfContent: "Cannot read PDF file" for an unreadable input, else the pages, errors, full text and totals |
| PdfExtractor.PypdfPagesNumbered | backend/app/services/pdf_extractor.py:81-107 | a readable PDF gives the pages it asked for, numbered from 1 in order, each counted exactly |
| PdfExtractor.NoErrorsIffNoPageRaised | backend/app/services/pdf_extractor.py:97-98 | no error is recorded exactly when no extracted page raised |
| PdfExtractor.RaisedPageHasError | backend/app/services/pdf_extractor.py:97-98 | every page that raised has its own error naming the page |
| PdfExtractor.PypdfFullTextLength | backend/app/services/pdf_extractor.py:106-107 | the full text of an extraction is as long as its pages plus the separators |
| PdfExtractor.GetPageCount | backend/app/services/pdf_extractor.py:240-248 | the page count, 0 when the PDF cannot be read |
| PdfExtractor.ExtractTextSimple | backend/app/services/pdf_extractor.py:129-142 | the full text of an extraction of every page, cleaned |
| PdfExtractor.ExtractTextByPage | backend/app/services/pdf_extractor.py:145-158 | each extracted page's text, in page order |
| PdfExtractor.BlockMap | backend/app/services/pdf_extractor.py:476 | every block's id is a key, and each key maps to a block with that id |
| PdfExtractor.BlockMapKeepsLast | backend/app/services/pdf_extractor.py:476 | when ids repeat, the map keeps the last block |
| PdfExtractor.ChildIdsStep | backend/app/services/pdf_extractor.py:562-564 | only CHILD relationships contribute ids, in order |
| PdfExtractor.WordTexts | backend/app/services/pdf_extractor.py:564-567 | at most one text per child id |
| PdfExtractor.WordTextsStep | backend/app/services/pdf_extractor.py:564-567 | one more child adds its WORD text, if it is a WORD |
| PdfExtractor.AllWordsKept | backend/app/services/pdf_extractor.py:564-567 | when every child is a WORD there is one text per child, in order |
| PdfExtractor.NoWordsNoText | backend/app/services/pdf_extractor.py:565-567 | children that are not WORD blocks, or are missing, give no text |
| PdfExtractor.ChildText | backend/app/services/pdf_extractor.py:556-569 | "" without relationships |
| PdfExtractor.GetTextFromChildren | backend/app/services/pdf_extractor.py:556-569 | the loop returns ChildText: the WORD children's texts joined by single spaces |
| PdfExtractor.TableGridStep | backend/app/services/pdf_extractor.py:535-544 | one more child updates the grid by its cell |
| PdfExtractor.TableGridErrSticks | backend/app/services/pdf_extractor.py:538-539 | once a cell lacks RowIndex or ColumnIndex, the KeyError stands |
| PdfExtractor.TableGridIgnoresNonCells | backend/app/services/pdf_extractor.py:536-537 | children that are not CELL blocks leave the grid as it was |
| PdfExtractor.TableGridLastCellWins | backend/app/services/pdf_extractor.py:542-544 | the last cell written at a position is the one whose text the grid holds |
| PdfExtractor.SetMin | backend/app/services/pdf_extractor.py:548 | the smallest element of a non-empty set of indices |
| PdfExtractor.SortedKeys | backend/app/services/pdf_extractor.py:548-550 | sorted() lists only elements of the set |
| PdfExtractor.SortedKeysSorted | backend/app/services/pdf_extractor.py:548-550 | sorted() lists every element once, strictly increasing |
| PdfExtractor.SortKeys | backend/app/services/pdf_extractor.py:548-550 | the loop computes sorted() of the keys |
| PdfExtractor.ValuesAt | backend/app/services/pdf_extractor.py:550-551 | the cell texts at the given columns, in order |
| PdfExtractor.RowsAt | backend/app/services/pdf_extractor.py:548-552 | the rows at the given row indices, in order |
| PdfExtractor.GridTable | backend/app/services/pdf_extractor.py:547-554 | one row per row index, ordered by index, each row's cells by column index |
| PdfExtractor.RowOf | backend/app/services/pdf_extractor.py:549-552 | the cells of one row ordered by column index |
| PdfExtractor.TableErrAt | backend/app/services/pdf_extractor.py:533-544 | the error raised at a child is the error of the whole table |
| PdfExtractor.ExtractTable | backend/app/services/pdf_extractor.py:526-554 | the loop returns TableOf: [] without relationships, else the grid ordered by row and column |
| PdfExtractor.MaxPage | backend/app/services/pdf_extractor.py:480-484 | at least 1, and at least every block's page |
| PdfExtractor.MaxPageAttained | backend/app/services/pdf_extractor.py:480-484 | the largest page is 1 or some block's page |
| PdfExtractor.PageFrom | backend/app/services/pdf_extractor.py:499-510 | the page's lines joined and cleaned, its tables, exact count, marked scanned; "" without lines |
| PdfExtractor.PagesUpTo | backend/app/services/pdf_extractor.py:499-510 | pages 1 to n, in order |
| PdfExtractor.ParseStep | backend/app/services/pdf_extractor.py:482-495 | one more block raises the maximum to its page, and adds its line or table to its page |
| PdfExtractor.FirstErrorSticks | backend/app/services/pdf_extractor.py:482-495 | once a block raises, the blocks after it change nothing |
| PdfExtractor.GroupByPage | backend/app/services/pdf_extractor.py:479-495 | the loop yields the largest page and each page's lines and tables, or the first KeyError |
| PdfExtractor.BuildPages | backend/app/services/pdf_extractor.py:498-510 | the loop builds pages 1 to max_page |
| PdfExtractor.ParseResponse | backend/app/services/pdf_extractor.py:464-524 | fails exactly with the first KeyError of the blocks, else returns TextractContent of all blocks |
| PdfExtractor.TextractPagesNumbered | backend/app/services/pdf_extractor.py:498-524 | pages 1 to the largest page number, in order, all scanned and counted exactly |
| PdfExtractor.PageWithoutBlocksIsEmpty | backend/app/services/pdf_extractor.py:500 | a page no block lies on has no text and no tables |
| PdfExtractor.LineOnItsPage | backend/app/services/pdf_extractor.py:483-490 | every LINE's text is among its page's lines, and a block without a page lies on page 1 |
| PdfExtractor.NoTablesUnlessAsked | backend/app/services/pdf_extractor.py:492 | without table extraction no page has tables |
| PdfExtractor.ExtractFromBytes | backend/app/services/pdf_extractor.py:268-310 | the answer parsed into pages, or a result with no pages whose one error is "Textract error: {code}" or the exception text |
| PdfExtractor.MeaningfulTextIsCrossMultiplication | backend/app/services/pdf_extractor.py:594-596 | the average test equals total_chars ≥ 50·max(total_pages, 1) |
| PdfExtractor.UnreadableIsNeverMeaningful | backend/app/services/pdf_extractor.py:68-76 | a PDF that cannot be read never passes the test |
| PdfExtractor.ExtractPdfAuto | backend/app/services/pdf_extractor.py:574-619 | the PyPDF2 result when it has enough text per page; otherwise the Textract result for a path, bytes or stream when allowed; else the PyPDF2 result |
| PyPdf.TextOf | backend/app/services/pdf_extractor.py:87 | extract_text() or "": "" when the page has no text |
| PdfDetector.SampledOnlyWithoutRaise | backend/app/services/pdf_detector.py:62-70 | the sample of the first n pages (SampledChars: their characters after strip() added up) has a count only when none of those pages raises |
| PdfDetector.CountSample | backend/app/services/pdf_detector.py:64-69 | the sampling loop yields the first raising page's error (FirstRaise), and otherwise the count SampledBy gives for the page-size measure passed in (StrippedSize, len(text.strip()), at both call sites); a raise leaves the sample without a count |
| PdfDetector.DetectPdfType | backend/app/services/pdf_detector.py:32-82 | returns DetectType: UNKNOWN for an unreadable PDF, no pages, zero pages to check or a raising sampled page, otherwise the classification of the sampled count |
| PdfDetector.NoneFrom | backend/app/services/pdf_detector.py:65-82 | once a sampled page raises, the whole sample fails |
| PdfDetector.SampledWhenNoneRaises | backend/app/services/pdf_detector.py:65-70 | when no sampled page raises, the sample has a count |
| PdfDetector.ClassifyIsCrossMultiplication | backend/app/services/pdf_detector.py:73-78 | DIGITAL exactly when total_chars ≥ min_chars·pages_checked, never UNKNOWN |
| PdfDetector.DetectUnknownWhenUnreadable | backend/app/services/pdf_detector.py:54-59 | an unreadable PDF, a failing page count and a PDF without pages are UNKNOWN |
| PdfDetector.DetectDigitalIff | backend/app/services/pdf_detector.py:62-78 | with k = min(sample_pages, total) > 0 pages sampled and none raising, DIGITAL exactly when their stripped characters reach min_chars·k, else SCANNED |
| PdfDetector.DetectUnknownWhenPageRaises | backend/app/services/pdf_detector.py:80-82 | a sampled page that raises makes the result UNKNOWN |
| PdfDetector.DigitalScannedExclusive | backend/app/services/pdf_detector.py:167-174 | a PDF is never both digital and scanned, and an unreadable one is neither |
| PdfDetector.FirstRaiseNoneIff | backend/app/services/pdf_detector.py:146-148 | the sampled error (FirstRaise, the first raising page) is absent exactly when no sampled page raises |
| PdfDetector.FirstRaiseAt | backend/app/services/pdf_detector.py:159-161 | the first raising page's message is the error |
| PdfDetector.GetPdfInfo | backend/app/services/pdf_detector.py:106-163 | "Cannot read PDF file" and "PDF has no pages" results; otherwise the page count, a 500-character sample of page 1, the average and the type, or the first error with UNKNOWN |
| SqsWorker.FailedResult | backend/app/services/sqs_worker.py:264-270 | a FAILED result carries no chunks, no characters and the error message |
| SqsWorker.FileName | backend/app/services/sqs_worker.py:246 | the last path segment: a suffix of the key holding no slash |
| SqsWorker.DropExtension | backend/app/services/sqs_worker.py:247 | the name without its last extension is a prefix of the name |
| SqsWorker.ExtractDocumentId | backend/app/services/sqs_worker.py:243-247 | the document id never holds a slash |
| SqsWorker.LastIndexOfAt | backend/app/services/sqs_worker.py:247 | rsplit cuts at the occurrence with none after it |
| SqsWorker.DropExtensionOf | backend/app/services/sqs_worker.py:247 | `id.ext` loses exactly `.ext`; a dotless name is kept whole |
| SqsWorker.FileNameOf | backend/app/services/sqs_worker.py:246 | the file name of `dir/name` and of a bare `name` is `name` |
| SqsWorker.DocumentIdOfKey | backend/app/services/sqs_worker.py:243-247 | the id of `dir/id.ext` and of `id.ext` is `id`, dots inside `id` included |
| SqsWorker.DocumentIdOfUpload | backend/app/services/sqs_worker.py:243-247 | `uploads/2025/doc123.pdf` gives `doc123` |
| SqsWorker.DocumentIdOfDottedName | backend/app/services/sqs_worker.py:243-247 | `my.document.name.pdf` gives `my.document.name` |
| SqsWorker.HasKey | backend/app/services/sqs_worker.py:223-230 | the `in` test never raises one of the exceptions `_parse_s3_event` catches |
| SqsWorker.ParsesFirstRecord | backend/app/services/sqs_worker.py:226-238 | the first record gives bucket, key, size (0 when absent) and event time (null when absent) |
| SqsWorker.SnsEnvelopeUnwrapped | backend/app/services/sqs_worker.py:223-224 | a body with `Message` and no `Records` is parsed as the message it carries |
| SqsWorker.NoEventCases | backend/app/services/sqs_worker.py:226-241 | no `Records`, an empty `Records` list, or a first record without `s3` give no event |
| SqsWorker.ChunkTexts | backend/app/services/sqs_worker.py:323 | one text per chunk, in order |
| SqsWorker.Embeddings | backend/app/services/sqs_worker.py:312-318 | one embedding answer per text, in order |
| SqsWorker.CountVectors | backend/app/services/sqs_worker.py:340 | the count of present vectors lies between 0 and the number of slots |
| SqsWorker.VectorsFor | backend/app/services/sqs_worker.py:309-318 | vectors exist only with a callback, one per chunk holding the callback's answer; a callback and chunks always give vectors |
| SqsWorker.CompletedResult | backend/app/services/sqs_worker.py:333-342 | COMPLETED with the chunk count, the extracted character count, the page count and the present-vector count |
| SqsWorker.ContentOutcomeShape | backend/app/services/sqs_worker.py:294-352 | after extraction the result is COMPLETED or FAILED; FAILED is empty with a message; COMPLETED exactly when text exists and storage did not raise |
| SqsWorker.FailedDocumentIsEmpty | backend/app/services/sqs_worker.py:258-352 | every FAILED result has no chunks, characters or metadata and has a message |
| SqsWorker.CompletedIff | backend/app/services/sqs_worker.py:258-352 | COMPLETED exactly when downloaded, of known type, with text, and storage did not raise; never SKIPPED or PROCESSING |
| SqsWorker.StoredVectorsMatchChunks | backend/app/services/sqs_worker.py:321-331 | storage receives the document id, the chunk texts and one embedding per chunk |
| SqsWorker.Handled | backend/app/services/sqs_worker.py:197-213 | deleted, processed and not failed exactly when the result is COMPLETED or SKIPPED |
| SqsWorker.InvalidEventDeleted | backend/app/services/sqs_worker.py:177-182 | a body with no upload event deletes the message and does nothing else |
| SqsWorker.DeletedIffDone | backend/app/services/sqs_worker.py:170-217 | a message is deleted and counted processed exactly when its document ends COMPLETED or SKIPPED, else counted an error |
| SqsWorker.CountsExclusive | backend/app/services/sqs_worker.py:170-217 | no message counts as both processed and error; only deleted ones count processed |
| SqsWorker.NonEmptyPolls | backend/app/services/sqs_worker.py:130-139 | at most one counted poll per receive call |
| SqsWorker.BatchBounds | backend/app/services/sqs_worker.py:136-139 | one batch adds at most one iteration and never lowers a counter |
| SqsWorker.RunBounds | backend/app/services/sqs_worker.py:124-147 | counters never drop, iterations ≤ non-empty polls, and the loop stops at max_iterations |
| SqsWorker.InterruptStops | backend/app/services/sqs_worker.py:141-143 | a KeyboardInterrupt stops the loop with the counters unchanged |
| SqsWorker.SqsWorker.constructor | backend/app/services/sqs_worker.py:64-110 | a stopped worker with the given configuration and both counters at 0 |
| SqsWorker.SqsWorker.Stop | backend/app/services/sqs_worker.py:151-153 | not running, counters unchanged |
| SqsWorker.SqsWorker.EmbedChunks | backend/app/services/sqs_worker.py:309-318 | the loop appends the callback's answer for each chunk text |
| SqsWorker.SqsWorker.ProcessDocument | backend/app/services/sqs_worker.py:249-352 | the result and stored vectors are those of DocumentResult, whose properties are the lemmas above |
| SqsWorker.SqsWorker.ProcessContent | backend/app/services/sqs_worker.py:304-342 | chunk, embed and store as ContentOutcome says |
| SqsWorker.SqsWorker.ProcessMessage | backend/app/services/sqs_worker.py:170-217 | the disposition is HandleMessage's; processed and error counters move by exactly its flags |
| SqsWorker.SqsWorker.Finish | backend/app/services/sqs_worker.py:197-213 | final status report, then delete and count processed, or count an error |
| SqsWorker.SqsWorker.Start | backend/app/services/sqs_worker.py:112-149 | the loop's final state is RunPolls over the receive calls, bounded as RunBounds states |
| SqsWorker.SqsWorker.ProcessBatch | backend/app/services/sqs_worker.py:136-139 | each message handled in order, counters moved as BatchFrom says |
| SqsWorker.ProcessSingleDocument | backend/app/services/sqs_worker.py:387-403 | a callback-less worker for the given bucket and region processes the key's document under its extracted id |
| RagService.ViLetterCount | backend/app/services/rag_service.py:63-64 | the Vietnamese letters counted never exceed the text's length |
| RagService.DetectLanguageInIntegers | backend/app/services/rag_service.py:50-68 | Vietnamese exactly when the Vietnamese letters are more than 2% of the length (50·count > length); empty text is English |
| RagService.BuildContextSection | backend/app/services/rag_service.py:280-295 | the loop returns ContextSection, characterised by ContextSectionFacts |
| RagService.JoinBlocks | backend/app/services/rag_service.py:285-295 | the loop over the contexts joins their blocks with the separator |
| RagService.JoinHead | backend/app/services/rag_service.py:295 | a join of non-empty parts starts with the first part's first character |
| RagService.ContextSectionFacts | backend/app/services/rag_service.py:280-295 | the placeholder exactly when there are no contexts; one more context appends the separator and its block |
| RagService.ContextBlockCitation | backend/app/services/rag_service.py:257-258 | every block opens with its context's citation number in brackets, readable back |
| RagService.PromptHoldsQueryAndSection | backend/app/services/rag_service.py:261-309 | the query and the context section sit in the prompt at the template's offsets |
| RagService.SnippetFacts | backend/app/services/rag_service.py:319 | a snippet is the text when ≤ 100 characters, else its first 100 followed by "...", never more than 103 |
| RagService.CitationsFollowContexts | backend/app/services/rag_service.py:312-323 | one citation per context with its number, document, page, score and snippet |
| RagService.Filtered | backend/app/services/rag_service.py:509-512 | the filter never lengthens the results |
| RagService.PassesIff | backend/app/services/rag_service.py:511 | a result passes exactly when its combined score reaches the threshold |
| RagService.FilteredKeeps | backend/app/services/rag_service.py:509-512 | filtering keeps exactly the results that pass |
| RagService.Numbered | backend/app/services/rag_service.py:516-526 | one context per result |
| RagService.HybridContextsFacts | backend/app/services/rag_service.py:508-526 | at most top_k contexts, numbered 1, 2, … in order, each from a passing result scaled to a percentage, with defaults for missing fields |
| RagService.RetrievalFacts | backend/app/services/rag_service.py:440-551 | a ready hybrid index answers with the filtered contexts (equal weights for technical queries); otherwise, or when it raises, the vector search answers, called with the query, top_k, threshold and the caller's search filter |
| RagService.HybridIgnoresFilter | backend/app/services/rag_service.py:486-545 | the search filter reaches only the vector fallback: the hybrid call, and the contexts of a hybrid search that answers, are the same whatever the filter |
| RagService.RagService.constructor | backend/app/services/rag_service.py:336-373 | template, hybrid flag and weights as given; a Claude service for the model alias |
| RagService.RagService.SetTemplate | backend/app/services/rag_service.py:375-378 | the template changes, nothing else |
| RagService.RagService.SetModel | backend/app/services/rag_service.py:380-382 | a known alias switches the Claude model; an unknown one is reported and the model is kept |
| RagService.RagService.RetrieveContexts | backend/app/services/rag_service.py:440-557 | the result is RetrievalOf's for the given search filter (so the filter reaches the vector fallback and nothing else), and the weights after the call are those before it |
| RagService.RagService.GenerateAnswer | backend/app/services/rag_service.py:559-610 | one Claude request with the built prompt and the language's system prompt; the response carries its text, usage, model, the context count and one citation per context |
| RagService.RagService.GenerateAnswerStream | backend/app/services/rag_service.py:612-649 | the same request, streamed; the chunks are those of the Claude stream |
| RagService.HybridResultsToContexts | backend/app/services/rag_service.py:508-526 | the comprehension, the cut and the numbering loop give HybridContexts |
| LanguageContext.Code | backend/app/services/language_context.py:40-47 | a language reads as "vi" or "en" |
| LanguageContext.CountWhere | backend/app/services/language_context.py:65 | a count of characters never exceeds the length |
| LanguageContext.CountVietnamese | backend/app/services/language_context.py:65 | the Vietnamese letters never exceed the length |
| LanguageContext.KeywordsIn | backend/app/services/language_context.py:69-71 | exactly the distinct words that are keywords (the set intersection) |
| LanguageContext.SignalsOf | backend/app/services/language_context.py:62-71 | the signals record the text's length and at most that many Vietnamese letters |
| LanguageContext.DetectQueryLanguage | backend/app/services/language_context.py:59-60 | texts shorter than three characters are English |
| LanguageContext.RatioCompare | backend/app/services/language_context.py:66-92 | each ratio threshold compares like its integer cross-multiplication |
| LanguageContext.DecideInIntegers | backend/app/services/language_context.py:75-96 | the five rules in order pick Vietnamese exactly when the integer rules do (rule 3 and rule 4 never change the outcome) |
| LanguageContext.DetectInIntegers | backend/app/services/language_context.py:49-96 | a query is Vietnamese exactly when it has ≥ 3 characters and its counts pass the integer rules |
| LanguageContext.Recent | backend/app/services/language_context.py:113 | the last min(n, 3) messages |
| LanguageContext.LanguagesOf | backend/app/services/language_context.py:117-119 | the detected language of each message's content (missing content reads as "") |
| LanguageContext.ViCount | backend/app/services/language_context.py:114-123 | the Vietnamese count never exceeds the number of messages |
| LanguageContext.ViCountStep | backend/app/services/language_context.py:120-123 | each message adds one to exactly one of the two counts |
| LanguageContext.DetectConversationLanguage | backend/app/services/language_context.py:99-125 | the loop returns ConversationLanguage |
| LanguageContext.EmptyConversationIsEnglish | backend/app/services/language_context.py:109-110 | an empty history is English |
| LanguageContext.ConversationLanguageOfRecent | backend/app/services/language_context.py:112-113 | older messages never change the outcome: only the last three count |
| LanguageContext.MajorityIsStrict | backend/app/services/language_context.py:125 | Vietnamese exactly on a strict majority; a tie is English |
| LanguageContext.Preference | backend/app/services/language_context.py:153 | a preference is used exactly when it is "vi" or "en" |
| LanguageContext.GetLanguageContext | backend/app/services/language_context.py:150 | the query's language is always recorded |
| LanguageContext.PreferenceWins | backend/app/services/language_context.py:153-159 | a usable preference is the answer's language, with no switch |
| LanguageContext.ResponseFollowsQuery | backend/app/services/language_context.py:161-188 | with history the answer follows the query, flagged as a switch exactly when it differs from the conversation; without, it follows the query unflagged |
| LanguageContext.LanguageSwitchMessage | backend/app/services/language_context.py:215-232 | a notice exactly when the language switched, in the answer's language |
| ClaudeService.TotalTokens | backend/app/services/claude_service.py:39-41 | total is input plus output |
| ClaudeService.UsageDict | backend/app/services/claude_service.py:50-55 | the three counts under their names, total the sum of the other two |
| ClaudeService.EstimateCostFacts | backend/app/services/claude_service.py:24-27 | unknown models are priced as Sonnet; Sonnet costs twelve times Haiku; per-million prices 3 and 15 |
| ClaudeService.ModelIdFor | backend/app/services/claude_service.py:114 | a known alias's id, Sonnet's otherwise |
| ClaudeService.EstimateTokens | backend/app/services/claude_service.py:134-136 | about four characters per token, never zero |
| ClaudeService.BuildMessages | backend/app/services/claude_service.py:138-154 | the history (when non-empty) followed by the prompt as the user's turn; the system prompt unchanged |
| ClaudeService.BodyFor | backend/app/services/claude_service.py:180-188 | version, max tokens, temperature and messages; a system entry exactly when the system prompt is non-empty |
| ClaudeService.PartialTextsAppend | backend/app/services/claude_service.py:256-263 | the texts yielded by two runs of chunks concatenate |
| ClaudeService.FinalsAppend | backend/app/services/claude_service.py:276-278 | the final chunks of two runs add up |
| ClaudeService.StepTexts | backend/app/services/claude_service.py:260-263 | one event adds its text delta, if any |
| ClaudeService.StepFinals | backend/app/services/claude_service.py:276-278 | one event adds a final chunk exactly when it is a message stop |
| ClaudeService.StreamTexts | backend/app/services/claude_service.py:256-263 | one non-final chunk per text delta, with its text, in order |
| ClaudeService.StreamFinals | backend/app/services/claude_service.py:276-278 | one final chunk per message stop |
| ClaudeService.StreamUsage | backend/app/services/claude_service.py:254-274 | the usage holds the last message start's input tokens and the last message delta's output tokens |
| ClaudeService.StopCarriesUsage | backend/app/services/claude_service.py:276-278 | a stop's chunk is empty, final, and carries the usage counted before it |
| ClaudeService.CitationTail | backend/app/services/claude_service.py:316 | the rest of a block after the citation number opens with the closing bracket |
| ClaudeService.NoBracketInNat | backend/app/services/claude_service.py:316 | a rendered natural number holds no closing bracket |
| ClaudeService.NoBracketInInt | backend/app/services/claude_service.py:316 | a rendered integer holds no closing bracket |
| ClaudeService.IndexOfAfter | backend/app/services/claude_service.py:316 | the first bracket lies where the number ends |
| ClaudeService.BlockCitationRoundTrip | backend/app/services/claude_service.py:315-317 | the citation number reads back from its block |
| ClaudeService.JoinAppend | backend/app/services/claude_service.py:319 | one more part adds the separator and the part |
| ClaudeService.ContextDictSectionAppend | backend/app/services/claude_service.py:308-319 | no contexts give an empty section; one more adds the separator and its block |
| ClaudeService.ContextDictBlockFacts | backend/app/services/claude_service.py:309-317 | missing fields default to 0, "", "unknown" and 1; every block opens with its citation number |
| ClaudeService.ClaudeService.constructor | backend/app/services/claude_service.py:98-123 | region and alias as given; the alias's id, Sonnet's when unknown |
| ClaudeService.ClaudeService.SwitchModel | backend/app/services/claude_service.py:125-132 | a known alias changes alias and id together; any other is a ValueError that changes nothing |
| ClaudeService.ClaudeService.InvokeStream | backend/app/services/claude_service.py:213-278 | the request from BodyFor under the current model id; the chunks are StreamFold's, characterised by the stream lemmas |
| QdrantClient.FirstBadDimension | backend/app/services/qdrant_client.py:175-179 | the index of the first vector without 1024 components, every one before it having 1024; none when all have |
| QdrantClient.ZipLength | backend/app/services/qdrant_client.py:189-191 | zip runs as long as the shortest of the four lists |
| QdrantClient.DefaultPayloads | backend/app/services/qdrant_client.py:181-205 | without pages and flags: one point per chunk, numbered by position, with its text, vector and document id, on page 1, not a table |
| QdrantClient.GivenPages | backend/app/services/qdrant_client.py:182-205 | given pages, point i is on page pages[i]; a shorter page list drops the chunks past its end |
| QdrantClient.AcceptedPrefix | backend/app/services/qdrant_client.py:211-218 | the batches before the first refused one are all accepted |
| QdrantClient.UpsertVectors | backend/app/services/qdrant_client.py:147-221 | length mismatch raises and sends nothing; no vectors return 0; a bad dimension raises naming the first bad index; otherwise the points go out in batches of 100 |
| QdrantClient.UpsertRunAllAccepted | backend/app/services/qdrant_client.py:211-221 | when every batch is accepted, all batches are sent and their lengths summed |
| QdrantClient.UpsertRunRefused | backend/app/services/qdrant_client.py:211-221 | otherwise the batches up to and including the first refused one are sent and the call raises at its index |
| QdrantClient.UpsertRunStep | backend/app/services/qdrant_client.py:211-218 | one batch off the front: accepted adds its length, refused stops the run |
| QdrantClient.UpsertRunReturns | backend/app/services/qdrant_client.py:211-221 | the recursive run meets the upsert outcome |
| QdrantClient.UpsertBatches | backend/app/services/qdrant_client.py:207-221 | the loop meets the upsert outcome: the count of points sent, or the first refused batch |
| QdrantClient.FirstBadIs | backend/app/services/qdrant_client.py:175-179 | the dimension loop stops at the index FirstBadDimension names |
| QdrantClient.UpsertedInOrder | backend/app/services/qdrant_client.py:207-221 | the batches hold the points in order, each non-empty and at most 100 long |
| QdrantClient.FilterFor | backend/app/services/qdrant_client.py:249-258 | a doc_id filter exactly for a given, non-empty document id |
| QdrantClient.ResultDefaults | backend/app/services/qdrant_client.py:271-284 | every hit keeps id and score; missing payload fields default to "", 0, 1, "" and false |
| QdrantClient.Search | backend/app/services/qdrant_client.py:223-286 | a query vector without 1024 components raises before any call; otherwise one request with filter, limit and threshold, and one result per hit in order |
| MonitoringService.FlushRunOk | backend/app/services/monitoring_service.py:165-171 | a flush succeeds exactly when every batch was sent and accepted |
| MonitoringService.FlushRunStep | backend/app/services/monitoring_service.py:166-169 | one more batch appends its call when sent and ands its success in |
| MonitoringService.CloudWatchMetrics.constructor | backend/app/services/monitoring_service.py:46-80 | namespace and region from the argument, the environment or the default; enabled only when asked and the client could be created; empty buffer |
| MonitoringService.CloudWatchMetrics.PublishBatch | backend/app/services/monitoring_service.py:82-113 | no call when disabled, without client or with nothing to send; otherwise one call for the namespace and metrics, True exactly when accepted |
| MonitoringService.CloudWatchMetrics.Flush | backend/app/services/monitoring_service.py:157-171 | an empty buffer is True at once; otherwise the buffer empties first and its contents go out in order in batches of 20, True exactly when all are accepted |
| MonitoringService.CloudWatchMetrics.PutMetric | backend/app/services/monitoring_service.py:115-155 | nothing while disabled; published alone when immediate; otherwise buffered, and flushed once the buffer holds a batch; a buffered call's new buffer and calls are PutEffect of the old buffer |
| MonitoringService.CloudWatchMetrics.AutoFlushOneBatch | backend/app/services/monitoring_service.py:151-153 | an auto-flush sends the full buffer in one call |
| MonitoringService.CloudWatchMetrics.Increment | backend/app/services/monitoring_service.py:173-180 | a buffered Count metric, as PutMetric: new buffer and calls are PutEffect of the old buffer |
| MonitoringService.CloudWatchMetrics.TrackLatency | backend/app/services/monitoring_service.py:182-189 | a buffered Milliseconds metric, as PutMetric: new buffer and calls are PutEffect of the old buffer |
| MonitoringService.CloudWatchMetrics.TrackCost | backend/app/services/monitoring_service.py:191-198 | a buffered metric with unit None, as PutMetric: new buffer and calls are PutEffect of the old buffer |
| MonitoringService.PutsFromSnoc | backend/app/services/monitoring_service.py:115-155 | one more buffered put appends its calls to those before and moves the buffer on |
| MonitoringService.FlushRunSendsAll | backend/app/services/monitoring_service.py:157-171 | a live flush of non-empty batches sends every datum of them, in order |
| MonitoringService.PutsFromDisabled | backend/app/services/monitoring_service.py:136-137 | a disabled publisher buffers and sends nothing |
| MonitoringService.PutsFromRoom | backend/app/services/monitoring_service.py:149-155 | while the buffer has room every datum is buffered in order and nothing is sent |
| MonitoringService.PutsFromBounded | backend/app/services/monitoring_service.py:151-155 | the buffer never holds a whole batch after a put |
| MonitoringService.PutEffectKeepsAll | backend/app/services/monitoring_service.py:149-171 | one live buffered put: what is sent plus what stays buffered is the old buffer with the new datum |
| MonitoringService.PutsFromKeepsAll | backend/app/services/monitoring_service.py:115-171 | a live publisher loses, duplicates and reorders nothing: data sent plus data buffered are the old ones followed by the new data |
| MonitoringService.SentDataConcat | backend/app/services/monitoring_service.py:157-171 | the data of two runs of calls is the data of each, in order |
| MonitoringService.CountNamedAppend | backend/app/services/monitoring_service.py:235-244 | counts of a name add over concatenation |
| MonitoringService.CountOne | backend/app/services/monitoring_service.py:235-244 | one metric counts once exactly when named so |
| MonitoringService.CountQueryPuts | backend/app/services/monitoring_service.py:232-244 | how often each name occurs among a query's metrics |
| MonitoringService.CountQueryName | backend/app/services/monitoring_service.py:232-244 | latency and contexts once each, cost once when positive, and the outcome once |
| MonitoringService.QueryPutsFacts | backend/app/services/monitoring_service.py:213-244 | the latency (Milliseconds) comes first and the context count (Count) second, each exactly once; exactly one of QuerySuccess and QueryFailure, as the outcome says; QueryCost exactly when the cost is positive |
| MonitoringService.TrackQueryMetrics | backend/app/services/monitoring_service.py:213-244 | the publisher keeps its flags and its bound, and its new buffer and the calls sent are the old state with each of QueryPuts put in turn (PutsFrom) |
| BudgetManager.PricingFor | backend/app/services/budget_manager.py:27-30 | Haiku's prices exactly for "haiku", Sonnet's for every other name |
| BudgetManager.CalculateCost | backend/app/services/budget_manager.py:158-178 | non-negative for non-negative counts; zero tokens cost nothing |
| BudgetManager.UnknownModelCostsAsSonnet | backend/app/services/budget_manager.py:175 | an unknown model is charged as Sonnet |
| BudgetManager.HaikuNeverDearer | backend/app/services/budget_manager.py:27-30 | Haiku never costs more than Sonnet on the same tokens |
| BudgetManager.CostAdditive | backend/app/services/budget_manager.py:176-178 | charging two requests separately costs the same as charging their sum |
| BudgetManager.MapSumRemove | backend/app/services/budget_manager.py:113-114 | the per-user sum can take any user out first |
| BudgetManager.MapSumUpdate | backend/app/services/budget_manager.py:206 | overwriting one user's spend moves the sum by exactly that change |
| BudgetManager.Fresh | backend/app/services/budget_manager.py:113-120 | a new ledger is empty, balanced, and starts at the given period |
| BudgetManager.RolledFacts | backend/app/services/budget_manager.py:139-156 | a ledger seen in a new period is emptied and restarted; in its own period it is unchanged; balance is kept |
| BudgetManager.ChargedBalanced | backend/app/services/budget_manager.py:204-210 | charging keeps the total equal to the per-user sum |
| BudgetManager.ChargedFacts | backend/app/services/budget_manager.py:204-210 | charging moves the user's spend and the total by the cost and no other user's spend |
| BudgetManager.Remaining | backend/app/services/budget_manager.py:242-243 | never negative, and the budget minus the spend whenever that is positive |
| BudgetManager.StatusOf | backend/app/services/budget_manager.py:239-267 | the spends as given; Haiku recommended exactly when fallback is active |
| BudgetManager.OverBudgetIff | backend/app/services/budget_manager.py:249 | over budget exactly when the daily or monthly spend reached its budget |
| BudgetManager.FallbackIff | backend/app/services/budget_manager.py:245-253 | with positive budgets, fallback exactly when enabled and a spend reached the threshold share of its budget |
| BudgetManager.PercentAtLeast | backend/app/services/budget_manager.py:245-253 | the percentage test compares like spend against share times budget |
| BudgetManager.OverBudgetFallsBack | backend/app/services/budget_manager.py:249-255 | with fallback enabled and a threshold ≤ 100%, over budget always recommends Haiku |
| BudgetManager.FallbackMonotone | backend/app/services/budget_manager.py:245-255 | spending more never switches the recommendation back to Sonnet |
| BudgetManager.EstimateRequestCost | backend/app/services/budget_manager.py:320-351 | both tiers priced by calculate_cost, savings their difference; the model argument is unused |
| BudgetManager.EstimateSavings | backend/app/services/budget_manager.py:320-351 | Haiku costs a twelfth of Sonnet; savings are never negative and 11/12 (about 91.7%) of any positive cost |
| BudgetManager.StatsOf | backend/app/services/budget_manager.py:353-371 | spend, budget, what is left, the number of users who spent, and the period |
| BudgetManager.ChargedUsers | backend/app/services/budget_manager.py:206-210 | a charge adds its user to the ledger, counted once |
| BudgetManager.BudgetManager.constructor | backend/app/services/budget_manager.py:103-123 | the given configuration or the defaults; both ledgers empty at the current date and month |
| BudgetManager.BudgetManager.CheckReset | backend/app/services/budget_manager.py:139-156 | each ledger whose period ended is emptied, independently |
| BudgetManager.BudgetManager.RecordUsage | backend/app/services/budget_manager.py:180-224 | after the reset, both ledgers charged the cost of the tokens; the record carries it |
| BudgetManager.BudgetManager.GetStatus | backend/app/services/budget_manager.py:226-267 | after the reset, the status of the two totals |
| BudgetManager.BudgetManager.GetRecommendedModel | backend/app/services/budget_manager.py:269-280 | Haiku exactly when the status has fallback active |
| BudgetManager.BudgetManager.CheckUserBudget | backend/app/services/budget_manager.py:282-296 | within budget exactly while today's spend is strictly below the per-user limit |
| BudgetManager.BudgetManager.GetUserSpending | backend/app/services/budget_manager.py:298-318 | after the reset, the user's daily and monthly spend, the limit and what is left of it |
| BudgetManager.BudgetManager.GetStats | backend/app/services/budget_manager.py:353-378 | after the reset, both ledgers' stats at the current periods and the configuration |
| BudgetManager.BudgetManager.Reset | backend/app/services/budget_manager.py:380-399 | clears exactly the selected ledgers, restarting them at the current period |
| ChatApi.DataFrame | backend/app/api/chat.py:347 | a frame is the payload wrapped in "data: " and a blank line, eight characters longer |
| ChatApi.DataFrameRoundTrip | backend/app/api/chat.py:347-352 | every frame is well formed and hands its payload back verbatim |
| ChatApi.Generate | backend/app/api/chat.py:340-352 | the loop yields exactly StreamBody: each chunk's frames in order, then one error frame if iteration raised |
| ChatApi.FramesWellFormed | backend/app/api/chat.py:341-349 | every frame of the stream is a well-formed SSE data event |
| ChatApi.FrameCount | backend/app/api/chat.py:346-349 | one frame per chunk with text plus one [DONE] per final chunk |
| ChatApi.ClaudeStreamFrames | backend/app/api/chat.py:342-349 | for a Claude stream, as many [DONE] frames as message_stop events |
| ChatApi.ErrorFrameLast | backend/app/api/chat.py:350-352 | a failure adds exactly one "[ERROR] message" frame after everything already sent |
| ChatApi.ConversationIdShape | backend/app/api/chat.py:197 | a given id is kept; otherwise "conv-" followed by the first twelve hex digits of a fresh uuid |
| ChatApi.UserIdOf | backend/app/api/chat.py:198 | the given user id, "anonymous" when absent or empty; never empty |
| ChatApi.HistoryFor | backend/app/api/chat.py:242-253 | history is passed on exactly when include_history is set, the request names a conversation, and loading succeeded |
| ChatApi.NewConversationHasNoHistory | backend/app/api/chat.py:243 | a request without a conversation id never sees history |
| ChatApi.LanguagePreference | backend/app/api/chat.py:265-267 | the preference is the language when given, non-empty and not "auto", else None; it is handed to a query call that does not accept it (ChatApi.ChatAsWritten) |
| ChatApi.SearchFilterFor | backend/app/api/chat.py:237-239 | a document filter exactly for a non-empty id list |
| ChatApi.TopKOr | backend/app/api/chat.py:272 | top_k when given and non-zero, else the default |
| ChatApi.TemplateNameRoundTrip | backend/app/api/chat.py:228 | template names and templates correspond one to one |
| ChatApi.TemplateChoice | backend/app/api/chat.py:226-234 | no template leaves the service alone; a known name selects it; anything else is a 400 |
| ChatApi.EstimatedTokens | backend/app/api/chat.py:201 | len(query)//4 + 2000 |
| ChatApi.RateLimitError | backend/app/api/chat.py:210-218 | a 429 whose only header is Retry-After |
| ChatApi.RetryAfterRoundTrip | backend/app/api/chat.py:213-217 | Retry-After reads back as the whole seconds of the limiter's retry delay |
| ChatApi.RateLimitHeaders | backend/app/api/chat.py:220-223 | an admitted request's remaining-requests and reset headers read back as the limiter's status |
| ChatApi.AdmitChat | backend/app/api/chat.py:200-218 | acquire without waiting for the estimated tokens: refused exactly when the limits say so, and then a 429 with their retry-after and the counters only cleaned; admitted otherwise, with one request recorded on the global and user minute counters, the positive estimate on the token counters, and the estimate returned |
| ChatApi.UnexpectedKeyword | backend/app/api/chat.py:270-277 | Python's keyword binding: no keyword is reported exactly when the callee declares them all, else the first one it does not declare |
| ChatApi.QueryRejectsPreference | backend/app/api/chat.py:270-277 | RAGService.query (rag_service.py:652-661) declares no language_preference and takes no **kwargs, so the call's keywords fail on it; declared, they bind |
| ChatApi.ChatAfterAdmission | backend/app/api/chat.py:225-306 | after admission: an unknown template is the 400 and nothing else runs; otherwise the user message is saved first, the RAG query runs exactly when its keywords bind, with the request's top_k, filter, history and preference, and a reply is returned exactly when it answers, as that answer converted |
| ChatApi.ChatAsWritten | backend/app/api/chat.py:256-306 | as written, every request past the template check ends in the 500 "Chat processing failed" naming the TypeError, after the user message was saved and with no RAG query run |
| ChatApi.ChatAsIntended | backend/app/api/chat.py:256-297 | with language_preference accepted, the RAG query runs with the request's preference and filter; its answer is saved as the assistant message and returned converted, losing nothing; an error it raises is the 500 |
| ChatApi.AdmitAndReport | backend/app/api/chat.py:200-223 | refused exactly when the limits say so, as the 429 with only the cleaning; admitted otherwise, charged one request and the estimate, with headers read from the counters as the charge left them |
| ChatApi.RunAdmitted | backend/app/api/chat.py:225-297 | the steps after admission return ChatAfterAdmission and set the chosen template on the service, leaving its weights |
| ChatApi.Chat | backend/app/api/chat.py:174-306 | the endpoint: admission as AdmitAndReport says, a refusal runs nothing else, an admitted request runs as ChatAfterAdmission says |
| ChatApi.ConvertRagResponse | backend/app/api/chat.py:143-170 | the conversation id and timestamp as given; total tokens the sum of input and output |
| ChatApi.ConvertRoundTrip | backend/app/api/chat.py:143-170 | the conversion loses nothing: the RAG answer, citations field by field and in order, usage, model, context count and query read back |
| ChatApi.ChatHealth | backend/app/api/chat.py:370-387 | an exception reports "unhealthy" with its message; otherwise the components are reported as given |
| ChatApi.HealthyIff | backend/app/api/chat.py:377-382 | "healthy" exactly when every component is true, "degraded" exactly when one is false |
| AdminApi.PdfSuffixAnyCase | backend/app/api/admin.py:94 | ".pdf", ".PDF" and ".Pdf" endings are all accepted |
| AdminApi.ValidateUpload | backend/app/api/admin.py:93-109 | accepted exactly for a name ending in ".pdf" in any case and a non-empty body; the name check comes first; each failure is its 400 |
| AdminApi.UploadMessageParses | backend/app/api/admin.py:112-142 | the worker's parser reads the bucket and the key "uploads/{doc_id}/{filename}" back from the queue message |
| AdminApi.WorkerDocumentIdIsFileStem | backend/app/api/admin.py:112 | the worker names the upload "uploads/{doc_id}/{stem}.pdf" after the stem, not after doc_id |
| AdminApi.UploadDocument | backend/app/api/admin.py:79-161 | validation errors first; a storage, record or queue failure is a 500 naming it; success reports doc_id, filename and UPLOADED |
| AdminApi.StatusFilter | backend/app/api/admin.py:181-190 | no status means no filter; otherwise its upper case must name a status, else 400 |
| AdminApi.StatusFilterAccepts | backend/app/api/admin.py:185 | every status is accepted under its own value |
| AdminApi.StatusFilterIgnoresCase | backend/app/api/admin.py:185 | every status is also accepted under its lower-case value |
| AdminApi.Sorted | backend/app/api/admin.py:212 | a permutation of the items, newest uploaded_at first |
| AdminApi.PageOf | backend/app/api/admin.py:214-225 | total is the item count, page and size as given, at most page_size items on the page |
| AdminApi.HasMoreIffNextPage | backend/app/api/admin.py:224 | has_more exactly when the next page is not empty |
| AdminApi.PagesPartition | backend/app/api/admin.py:214-217 | every item sits on the page and at the offset its position says |
| AdminApi.ListDocuments | backend/app/api/admin.py:164-225 | the listing as written: one fetch limited to page_size, then collect, sort and slice |
| AdminApi.CollectItems | backend/app/api/admin.py:198-209 | one item per record, in order, missing fields defaulted |
| AdminApi.LaterPagesAlwaysEmpty | backend/app/api/admin.py:193-225 | as written, every page after the first is empty and has_more is never set |
| AdminApi.PastShortListing | backend/app/api/admin.py:215-224 | a listing no longer than one page shows nothing on page 2 or later, and reports no more |
| AdminApi.ListAllDocuments | backend/app/api/admin.py:164-225 | the intended listing over all matching documents: total is their count and has_more exactly when more lie past this page |
| AdminApi.GetDocument | backend/app/api/admin.py:228-251 | a missing or empty record is a 404 naming the id; otherwise the record as an item |
| SrcChatHistory.ConvertFloats | src/services/chat_history_manager.py:13-21 | a float becomes the decimal of its string; dicts keep their keys and lists their length; anything else is unchanged |
| SrcChatHistory.ConvertedHasNoFloats | src/services/chat_history_manager.py:13-21 | no float is left anywhere after conversion, however deeply nested |
| SrcChatHistory.FloatFreeUnchanged | src/services/chat_history_manager.py:13-21 | a value without floats comes back unchanged |
| SrcChatHistory.ConvertIdempotent | src/services/chat_history_manager.py:13-21 | converting twice is converting once |
| SrcChatHistory.SortKeyInOwnHistory | src/services/chat_history_manager.py:54-56 | every message's sort key starts with its conversation's history prefix |
| SrcChatHistory.SortKeySeparatesConversations | src/services/chat_history_manager.py:54-56 | with ids free of '#', a conversation's history prefix matches no other conversation's messages |
| SrcChatHistory.TimestampOf | src/services/chat_history_manager.py:168 | the timestamp when present and non-empty, else created_at, else "" |
| SrcChatHistory.SavedReadsBack | src/services/chat_history_manager.py:63-185 | reading a saved item back gives the message the save returned, metadata with floats as decimals and an empty dict as none |
| SrcChatHistory.SavedItemInHistory | src/services/chat_history_manager.py:74-84 | a saved message is under its conversation's history prefix |
| SrcChatHistory.GetConversationHistory | src/services/chat_history_manager.py:147-182 | one message per returned item, in order, with the defaults; has_more exactly when the page came back full |
| SrcChatHistory.Reversed | src/services/chat_history_manager.py:205 | the same length, element i taken from the mirrored position |
| SrcChatHistory.GetHistoryForContext | src/services/chat_history_manager.py:187-215 | the role and content of each fetched message, in reverse order |
| SrcChatHistory.ContextOldestFirst | src/services/chat_history_manager.py:162-205 | a newest-first fetch gives a context that runs oldest first |
| SrcChatHistory.GroupStepKeeps | src/services/chat_history_manager.py:235-246 | one more item keeps the grouping invariant: keys are the named conversations, each with its count and first time, in first-seen order |
| SrcChatHistory.GroupingFacts | src/services/chat_history_manager.py:234-246 | the grouping loop ends with exactly the named conversations, each with its item count and its first item's time |
| SrcChatHistory.Summaries | src/services/chat_history_manager.py:250 | one summary per conversation, in insertion order |
| SrcChatHistory.ListUserConversations | src/services/chat_history_manager.py:217-255 | the loop and sort return ConversationList |
| SrcChatHistory.ConversationListFacts | src/services/chat_history_manager.py:248-255 | at most limit entries, latest first, each a named conversation with its count and first time |
| SrcChatHistory.AllConversationsWithinLimit | src/services/chat_history_manager.py:255 | a limit at least the number of conversations lists every one |
| SrcChatHistory.DistinctCard | src/services/chat_history_manager.py:240 | distinct first-seen ids are as many as the conversations listed |


## Left out

- I/O and service calls to DynamoDB, S3, SQS, Textract, Bedrock, CloudWatch and Qdrant are not executed. Their answers are inputs, such as outcome sequences, oracle functions or "raised" markers, so transport failures appear only as the error values the code catches.
- Concurrency is not modelled: the threading locks of the rate limiter and the budget manager, `RateLimiter._wait_in_queue` and `release_queue` (the event-based queue used by `acquire(wait=True)`), and every `time.sleep`. Retry delays are returned as values instead of slept.
- `RateLimiter.record_usage` only writes a log line, and `RateLimiter.get_stats` is a snapshot of the counters' `get_remaining`. Neither adds logic of its own.
- RateLimiter.RateLimiter.CheckRateLimit: the source calls `time.time()` separately inside each counter. The model reads one instant `now` for the whole check, which makes the "global limit exceeded" branches of `acquire` unreachable.
- Lib.LowerStr: Python's full Unicode lower-casing is modelled only for ASCII, the Latin-1 capitals, Ă Đ Ĩ Ũ Ơ Ư and the letter pairs U+1E00 to U+1E95 and U+1EA0 to U+1EFF; every other character (Greek, Cyrillic, U+1E9E and the rest) is left unchanged, where Python may lower it.
- Lib.UpperStr: upper-casing is modelled for the same letters and the dotless i; every other character is left unchanged, so Python's ÿ to Ÿ, µ to Μ and the expansions that lengthen a string (ß to SS, the ligatures) are not modelled.
- AdminApi.StatusFilter: accepts exactly what Python accepts, because the only characters whose Python upper case occurs in a status value are the ASCII letters and the dotless i, both modelled; the general upper-casing limits above do not reach it.
- Floating point is modelled as exact `real` arithmetic: costs, percentages, RRF scores and text ratios. The rounding applied by the budget reports (`to_dict`, `get_user_spending`, `get_stats`, `estimate_request_cost`) is not modelled.
- BM25 scoring is kept abstract: `BM25Index.tokenize` (whose replacement pattern is malformed), `_idf` and `_score_document` are uninterpreted functions. The hybrid merge's reciprocal-rank formula is concrete.
- BedrockRetry.GetDelay: the value `random.random()` returns is a parameter `sample`, not a random draw. `BedrockRetry.JitterBounds` bounds the delay for samples in [0, 1).
- The `RetryableBedrockClient` wrapper and the `bedrock_retry` decorator factory only apply `with_retry` to a client call, which `BedrockRetry.WithRetry` models. Logging callbacks are not modelled.
- Textract's asynchronous S3 jobs are not modelled: `extract_from_s3`, `_start_text_detection`, `_start_document_analysis` and `_wait_for_job`. Only the synchronous byte path and the response parsing are.
- PyPDF2 reading is not modelled. A document is a sequence of per-page results, and `_get_pdf_reader` and `_extract_metadata` are not modelled.
- SqsWorker.SqsWorker.Start runs over a finite script of receive results rather than an endless poll. JSON decoding of message bodies is an input function. `_download_from_s3` is one of the environment's answers.
- `ClaudeService.invoke` is an input wherever it is used. The parsing of its non-streamed response body is not modelled; the request body it sends is modelled (`ClaudeService.BodyFor`).
- The model does not include `ClaudeService.health_check`, `EmbeddingsService` client construction, or the factory functions: `create_embeddings_service`, `create_chat_history_manager`, and the `get_*` singletons of the RAG service, budget manager and metrics.
- `RAGService.query` is not modelled. It only calls `retrieve_contexts` and then `generate_answer`, timing them; both calls are modelled. `ChatApi.QueryParameters` lists the parameters it declares.
- `RAGService.health_check`, `RAGResponse.to_dict` and `_init_bm25_from_qdrant` are not modelled either.
- The hybrid and vector retrieval answers are oracle parameters. The code calls `get_all_points` and `search_for_rag`, which the Qdrant client does not define. Likewise `rag_service.py:21-25` and `chat.py:23` import `SearchFilter` and `RAGContext` from `qdrant_client.py`, which defines neither: it defines only `SearchResult`, `QdrantVectorStore` and `create_qdrant_store`. The model takes a search filter to be the list of document ids it is built from.
- RagService.RetrievalOf: the search filter is handed only to the vector fallback (`rag_service.py:540-545`). The hybrid path never reads it, so with hybrid retrieval on, a request limited to some documents can be answered from any document (`RagService.HybridIgnoresFilter`). The chat service is built with `use_hybrid=False` (`chat.py:127`), so its requests always reach the filtered vector search. What a filtered hybrid search would return is not specified, so the model states only the drop.
- The prompt text constants (`SYSTEM_PROMPTS`, the Vietnamese prompts and the query template) are parameters, as are the fixed instruction texts. `get_language_instruction` only picks one of two such texts and is not modelled.
- QdrantClient operations that are each one service call are not modelled: `ensure_collection`, `_create_payload_indexes`, `delete_document`, `get_document_count`, `get_collection_info` and `health_check`.
- MonitoringService `track_embedding_metrics` and `track_search_metrics` are not modelled. They put named metrics exactly as `track_query_metrics` does, which is modelled.
- ChatApi.Chat: the endpoint is modelled with the RAG query's answer and the history load as inputs, and the history writes as the calls it asks for (`ChatApi.SaveCall`), since a failed write is only logged. Not modelled are:
  - the `record_usage` call after an answer, which only writes a log line;
  - the response header written on the 429 path, which the raised exception's headers replace (those are modelled);
  - Pydantic request validation;
  - the `chat_stream` endpoint's own steps, apart from its frames (`ChatApi.Generate`).
- The chat API's rate-limit, budget, conversation list, conversation history and delete endpoints are not modelled. They forward to operations modelled in the rate limiter, budget manager and history modules.
- The text chunker's table detection is not modelled, because it is weakly specified: `detect_table_in_text`, `infer_table_name`, `create_table_overview_chunk`, `table_to_semantic_description`, `chunk_text_with_tables`, `_find_overlap_boundary` and `chunk_text_simple`.
- `CachedChatHistoryManager.get_cache_stats`, `ChatHistoryManager._serialize_json` and the chat history's uuid and timestamp generation are not modelled. Identifiers and timestamps are inputs.
- SrcChatHistory.SavedItem: the `ttl` attribute (now plus `ttl_days`) is not modelled. `str(float)` inside `convert_floats_to_decimal` is a parameter `repr`.
- DocumentStatusManager: the `list_documents` scan is not modelled. Its result is the input `fetch` of `AdminApi.ListDocuments`.
- TextChunker.ChunksOf: requires a non-negative chunk size, and so does TextChunker.ChunkText. Python also runs `chunk_text` with a negative `chunk_size` that exceeds the overlap; the model does not follow that case.
- ChatHistoryCache.CachedChatHistoryManager.SetCache: the cache is a map without insertion order, so on a tie for the oldest timestamp the model may evict any of the tied entries. Python's `min()` evicts the first one inserted.
- Lib.ParseInt: stricter than Python's `int()`. It rejects surrounding whitespace, `_` digit separators and non-ASCII digits, which `int()` accepts. It reads the DynamoDB usage counters of stored messages, the headers the API writes, and the number in a citation block, so a counter or citation written as ` 3` or `1_0` fails in the model where Python reads it.
- Bm25Search.RrfScore: `rrf_k` is a natural number. Python accepts any integer, and a negative one can make a reciprocal rank divide by zero.
- PdfExtractor.BlockMap: every Textract block is taken to carry `Id` and `BlockType`. A block without them makes the source raise a KeyError, which the model does not represent.
- RagService.PageOf: a `page` stored as a non-number is read as page 1. Python passes the stored value through as it is.
- AdminApi.StrField: a field stored as a non-string is read as the empty string. Python's `doc.get(k, "")` returns the stored value unchanged.
- ClaudeService.StreamFold: each final chunk carries a copy of the usage counted so far. In the source the final chunk and the running count share one mutable `TokenUsage`, so a later message start would also change a chunk already yielded.

## Findings

| source | as written | input that shows it | evidently intended | confidence | as-written member | corrected member |
|---|---|---|---|---|---|---|
| backend/app/api/chat.py:270-277 | `chat()` calls `rag_service.query(..., language_preference=language_pref)`, but `RAGService.query` (`rag_service.py:652-661`) declares no such parameter and takes no `**kwargs` | any admitted request with a valid template: the call raises TypeError, which `except Exception` (`chat.py:301-306`) turns into a 500, after the rate limiter charged the request and the user message was saved | the RAG query runs with the request's language preference, and its answer is saved and returned | high, not executed | ChatApi.ChatAsWritten | ChatApi.ChatAsIntended |
| backend/app/api/admin.py:193-225 | `list_documents` fetches at most `page_size` items (`Limit=page_size` in `document_status_manager.py:264-282`) and then slices `[(page-1)*page_size, page*page_size)` out of that short list | `page = 2` with any listing: the slice starts at `page_size`, past the end of a list of at most `page_size` items | pages partition the whole listing, and `has_more` says whether another page follows | medium, not executed | AdminApi.LaterPagesAlwaysEmpty | AdminApi.ListAllDocuments |
