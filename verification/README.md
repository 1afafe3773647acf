# go-rag: a Dafny model of the storage, retrieval and event core

This project models the stateful core of go-rag, a local document store with keyword and vector
search, and proves what its code promises. Code that changes objects step by step is a class or a
loop proved against a specification; concurrent code is a machine whose steps may interleave in any
way, and its theorems hold in every run.

- `Circuit`, `Processor`, `IngestProtocol`, `Lifecycle`: from an ingested chunk to its embedding. The
  circuit breaker; the drain loop with its batches and the isolation of failing texts; the separate
  durable writes of ingest, embedding, copying and deletion with a crash between any two; the life of
  a document record and its events under the document lock and the pipeline mutex.
- `Delta`, `Sections`: what a re-ingest reports and copies; headings, links and offsets.
- `Lru`, `Coherence`: the caches, and the epoch that keeps cached answers current.
- `Bytes`, `Ranking`, `FtsStore`, `Fts`, `Retrieval`: the keyword index over ordered keys, ranking,
  rank fusion, one hit per document, reranking, the vector index.
- `Splitter`: words, segments, overlap, tail merge, token budgets.
- `EventBus`, `Tokens`, `Pagination`, `Listing`: event fan-out, page tokens and cursors, pages, drains.

Run `dafny verify dfyconfig.toml` in this directory.

## Where the code and its documentation differ

The model follows the code. Each difference has a concrete input and an exact condition.

- `diffChunks` discards the rest of a new bucket once its paired part is out, so further copies of an
  existing text are not reported as added (`Delta.MirrorsIff`, `Delta.SurplusCopyUnreported`).
- `TranslateOffset` compares original positions with the offset already shifted
  (`Sections.TranslatesIff`, `Sections.TranslationOvershoots`).
- Writers of a document record are said to take the pipeline mutex; storing a document does not
  (`Lifecycle.GoneAfterDeletedIff`, `Lifecycle.StoreInsideDeleteResurrects`, `Lifecycle.SilentRemovalIff`).
- "Zero loss" fails when a chunk is stored again at the wrong moment of its own deletion or dequeueing
  (`IngestProtocol.QueueingLosesIff`, `IngestProtocol.BothLossesHappen`).
- Copied embeddings are gated on the model, but the processor's fast path takes a record of any model
  (`IngestProtocol.FastPathKeepsModel`, `IngestProtocol.StaleVectorStays`).
- Segments can nest when the overlap exceeds half a window (`Splitter.EndsGrowIff`).
- Token counts are stored in two bytes but added in full (`FtsStore.DeleteUndoesIndexIff`).
- A failed rerank with k = 0 returns nothing where a search returns everything
  (`Retrieval.Retrieval.FallbackIsSearchIff`).
- The breaker admits one probe at a time only when calls do not overlap (`Circuit.SecondProbeIff`,
  `Circuit.OverlapAdmitsTwoProbes`). The embedder's breaker serves one goroutine; calls can overlap on
  the copies of this machine in the caption and enrichment packages.
- An answer without a vector for any text of its batch, be it empty or full of missing entries, is a
  success to the breaker, changes nothing, and is asked for again for as long as such answers come
  (`Processor.StuckIff`, `Processor.StuckForever`).
- Failures are said to be final only when another text of the batch succeeded; an answer whose only entry
  is missing counts as a success too (`Processor.FailuresAreIsolated`).
- A queueing that loses nothing can still leave a chunk off the queue without its vector in the index
  (`IngestProtocol.QueueingLagsIff`, `IngestProtocol.LagHappens`).

## Model

| member | source | states |
|---|---|---|
| `Circuit.Breaker.Allow` | internal/embedproc/circuit.go:35-56 | one request for admission: the whole new state and the answer, in all three phases |
| `Circuit.Breaker.Ok` | internal/embedproc/circuit.go:58-64 | a success closes the breaker and forgets failures |
| `Circuit.Breaker.Fail` | internal/embedproc/circuit.go:66-76 | a failure opens it at the threshold, or at once in the half-open phase |
| `Circuit.QuietWhileOpen` | internal/embedproc/circuit.go:35-48 | in any run nothing is admitted between opening and `lastFail + resetAfter` |
| `Circuit.NeverStuck` | internal/embedproc/circuit.go:35-76 | after any run of resolved calls, a call past the reset time is admitted, and its success closes the breaker |
| `Circuit.OpensAtThreshold` | internal/embedproc/circuit.go:66-76 | it opens after exactly `maxFails` consecutive failures, not sooner |
| `Circuit.AdmissionBound` | internal/embedproc/circuit.go:35-76 | if every call fails, at most `maxFails + floor(T / resetAfter)` calls are admitted by time T |
| `Circuit.ProbeIsAlone` | internal/embedproc/circuit.go:42-52 | once a probe is granted nobody else is admitted until a call resolves |
| `Circuit.OverlapAdmitsTwoProbes` | internal/embedproc/circuit.go:33-76 | at five failures and thirty seconds, a run whose second probe is admitted while the first call's probe has not resolved |
| `Circuit.SecondProbeIff` | internal/embedproc/circuit.go:35-76 | which resolutions those are: a success with fewer failures since than the threshold, or a last failure at least the reset time ago |
| `Circuit.OverlapIff` | internal/embedproc/circuit.go:35-76 | among any events of other calls, a request gets in past an outstanding probe iff the resolutions before it allow it |
| `Lru.Cache.Get` | internal/engine/cache.go:70-85 | returns the stored value and moves it to the front of the linked list; map and list stay in bijection |
| `Lru.Cache.Put` | internal/engine/cache.go:90-108 | inserts or overwrites at the front and evicts the back when over capacity |
| `Lru.Cache.Flush` | internal/engine/cache.go:112-120 | empties the cache |
| `Lru.TraceBounded` | internal/engine/cache.go:67-120 | on any trace keys stay distinct and the size never exceeds the capacity |
| `Lru.Inclusion` | internal/engine/cache.go:67-120 | on any common trace the list of a smaller cache is a subsequence, with the same values, of a larger one's |
| `Lru.LargerNeverLosesAHit` | internal/engine/cache.go:70-85 | whatever a smaller cache hits, a larger one hits with the same value |
| `Lru.HitsAreFresh` | internal/engine/cache.go:70-108 | a hit returns the last value put for that key since the last flush |
| `Lru.RecentlyPutStays` | internal/engine/cache.go:70-108 | a value put is hit as long as fewer other keys than the capacity have been read or written since |
| `Lru.PutsEvict` | internal/engine/cache.go:90-108 | a key is gone once as many others as the capacity have been put since its last use |
| `Coherence.RunKeepsInv` | internal/engine/query.go:115-361 | invariant of every interleaving of queries, mutations, bumps and flushes |
| `Coherence.Coherent` | internal/engine/query.go:115-122 | a query that read the epoch after the bump of a mutation never returns anything read before that mutation |
| `Coherence.StoredWithinOneEpoch` | internal/engine/query.go:359-361 | every stored answer was read wholly while the epoch was the one in its key |
| `Coherence.Transparent` | internal/engine/query.go:115-361 | when every earlier mutation was bumped and none follows, the answer, cached or not, equals a cold retrieval |
| `Coherence.NoCacheReadsItself` | internal/engine/query.go:116 | a query that asks for no cached answer returns exactly what it read itself, in order |
| `Coherence.AskedAgainHits` | internal/engine/query.go:115-361 | a finished retrieval of one epoch is stored, and the same request asked in that epoch gets its readings |
| `Coherence.NotStored` | internal/engine/query.go:354-361 | nothing is stored when the reranker failed or the epoch moved on |
| `Coherence.BumpMisses` | internal/engine/query.go:115-122 | after a bump no earlier answer is found |
| `Coherence.FlushMisses` | internal/engine/query.go:115-122 | nor after a flush |
| `Coherence.ReadsCurrent` | internal/engine/query.go:125-349 | a read after a mutation reads what the mutation left |
| `EventBus.NeverPanics` | internal/events/bus.go:87-167 | in every interleaving whoever is about to be sent an event or closed is open, so no send hits a closed channel and none is closed twice; no buffer overflows |
| `EventBus.OpenIff` | internal/events/bus.go:87-167 | in every run a channel is open iff its subscriber is joining or registered |
| `EventBus.CloseBusCloses` | internal/events/bus.go:157-167 | closing the bus closes every channel, and who joins later gets a closed one |
| `EventBus.LostIffFull` | internal/events/bus.go:131-139 | in every run an event is lost to a subscriber iff it was offered when its buffer was full |
| `EventBus.SentIffRoom` | internal/events/bus.go:131-139 | and is put in its buffer iff it was offered when there was room |
| `EventBus.NothingLostWithRoom` | internal/events/bus.go:131-139 | a subscriber whose buffer is never full loses nothing |
| `EventBus.ReadInTime` | internal/events/bus.go:87-141 | a subscriber that reads each event before the next is published gets all n of them, in order |
| `EventBus.OverflowDropsNewest` | internal/events/bus.go:87-141 | one that reads nothing keeps the first events, as many as its buffer holds, and loses each later one |
| `EventBus.ExactlyOnce` | internal/events/bus.go:87-141 | each event at or above a subscriber's baseline is enqueued once or counted dropped once when its fan-out is over |
| `EventBus.AtMostOnce` | internal/events/bus.go:127-141 | no subscriber handles an event twice |
| `EventBus.NothingAfterRemoval` | internal/events/bus.go:100-167 | nothing is delivered to a subscriber after it is unsubscribed or the bus closed |
| `EventBus.ExactlyOnceUntilRemoval` | internal/events/bus.go:87-167 | of the events from its baseline on, a removed subscriber has for ever handled exactly those whose fan-out was over at its removal, each once |
| `EventBus.Isolation` | internal/events/bus.go:127-141 | the buffer size and reading speed of one subscriber change nothing for any other |
| `EventBus.Bus.Subscribe` | internal/events/bus.go:87-116 | registers a fresh channel of the size asked for, or 64, and returns the baseline; on a closed bus a closed channel |
| `EventBus.Bus.Unsubscribe` | internal/events/bus.go:100-115 | removes and closes at most that channel |
| `EventBus.Bus.Publish` | internal/events/bus.go:127-141 | every subscriber with room in its buffer gets the next number at the end of it; every other keeps its buffer and has the number counted as lost; whatever the map order |
| `EventBus.Bus.Close` | internal/events/bus.go:157-167 | closes every registered channel once and empties the registry |
| `Delta.BucketByHash` | internal/pipeline/delta.go:57-67 | per content key, the ids in order |
| `Delta.KeysAgreeIff` | internal/pipeline/delta.go:57-67 | two chunks share a bucket iff they have the same hash, or none and the same id |
| `Delta.DiffChunks` | internal/pipeline/delta.go:19-52 | the deltas are, as a multiset, those of the reference, and the remap is its remap, for any map order |
| `Delta.UnchangedCount` | internal/pipeline/delta.go:19-52 | per key exactly min(old, new) chunks are unchanged |
| `Delta.EveryOldOnce` | internal/pipeline/delta.go:19-52 | every old chunk is reported exactly once, as unchanged or removed |
| `Delta.NewMentionedIff` | internal/pipeline/delta.go:19-52 | exactly which new chunks are reported |
| `Delta.NewOnce` | internal/pipeline/delta.go:19-52 | a new chunk that is reported at all is reported by one delta, once |
| `Delta.MirrorsIff` | internal/pipeline/delta.go:19-52 | taking the old ids named by the deltas out of the old set and putting the new ones in gives the new chunk set iff no old text gained copies |
| `Delta.SurplusCopyUnreported` | internal/pipeline/delta.go:38-45 | a concrete input on which a new chunk is reported nowhere |
| `Delta.RemapInjective` | internal/pipeline/delta.go:19-52 | the remap is injective and keeps the order of equal texts |
| `Delta.PreserveEmbeds` | internal/pipeline/reingest.go:78-96 | copies exactly the records of the current model to the remapped ids |
| `Delta.CopiesAreCurrent` | internal/pipeline/reingest.go:78-96 | a copied record is the current model's vector of the new chunk's own text |
| `Sections.TranslateOffset` | internal/redact/redact.go:112-121 | the loop's result |
| `Sections.TranslateIsNet` | internal/redact/redact.go:112-121 | the loop moves the offset by exactly the edits whose original position lies before the offset as moved so far |
| `Sections.DocumentedIsNet` | internal/redact/redact.go:105-111 | the documented value moves it by the edits before it |
| `Sections.DocumentedIsPosition` | internal/redact/redact.go:105-111 | the documented sum is where the text really is in the redacted text |
| `Sections.TranslatesIff` | internal/redact/redact.go:105-121 | for edits of any kind the two agree iff the edits counted by only one of them cancel out |
| `Sections.CrossedTranslatesIff` | internal/redact/redact.go:105-121 | for edits of any kind they agree when no edit is crossed; if the crossed edits all move the offset one way, only then |
| `Sections.GrowingTranslatesIff` | internal/redact/redact.go:105-121 | when placeholders are longer than what they replace: iff the moved offset does not pass the first edit at or past the offset |
| `Sections.ShrinkingTranslatesIff` | internal/redact/redact.go:105-121 | when they are shorter: iff no edit before the offset lies at or past the offset as moved before that edit |
| `Sections.TranslationOvershoots` | internal/redact/redact.go:112-125 | two inputs with real placeholders, one shrinking and one growing, on which the loop differs |
| `Sections.ResolveBreadcrumb` | internal/pipeline/section.go:30-73 | the heading stack equals the declarative path: active headings, levels strictly increasing |
| `Sections.Replay` | internal/pipeline/section.go:50-60 | popping and pushing keeps the path of the headings read so far |
| `Sections.PathUnique` | internal/pipeline/section.go:30-73 | there is one such path only |
| `Sections.LeafIsNearest` | internal/pipeline/section.go:68-72 | the leaf is the nearest preceding heading |
| `Sections.ResolveWikilinks` | internal/pipeline/section.go:85-103 | the distinct targets inside the chunk, in order of first occurrence |
| `Splitter.TokenizeWords` | internal/chunk/chunk.go:76-108 | the maximal runs of non-space bytes, with sentence and paragraph flags |
| `Splitter.TokenizationUnique` | internal/chunk/chunk.go:76-108 | a text has one tokenization |
| `Splitter.FieldsAreWords` | internal/chunk/chunk.go:50-56 | counting fields and tokenizing agree |
| `Splitter.TokensGalois` | internal/chunk/chunk.go:50-64 | the two token conversions form a Galois connection |
| `Splitter.TokensRoundUp` | internal/chunk/chunk.go:50-56 | the estimate is 1.3 tokens a word, rounded up |
| `Splitter.WordsBetweenSpaces` | internal/chunk/chunk.go:76-112 | a byte is outside every word iff it is a space, tab, line feed or carriage return |
| `Splitter.BreaksIff` | internal/chunk/chunk.go:92-96 | two newlines break a paragraph, one does not |
| `Splitter.EndsSentenceIff` | internal/chunk/chunk.go:76-90 | a word ends a sentence iff it ends with a full stop, exclamation or question mark, or one of their full-width forms |
| `Splitter.CutFrom` | internal/chunk/chunk.go:140-180 | where a segment ends: rest, paragraph flush, sentence snap, or full window |
| `Splitter.Split` | internal/chunk/chunk.go:121-221 | the segments are those of the one cutting of the text, with the small tail merged; a text within the budget gives at most one |
| `Splitter.CutIffTooLong` | internal/chunk/chunk.go:125-153 | a text is cut iff its estimate exceeds the budget |
| `Splitter.WindowIsMost` | internal/chunk/chunk.go:125-129 | a window is the most words within the budget: one more would exceed it |
| `Splitter.OverlapIsMost` | internal/chunk/chunk.go:130-133 | the overlap is the most words within its own budget, or a quarter of the window when that is smaller |
| `Splitter.UncutIsFull` | internal/chunk/chunk.go:135-180 | a segment that no paragraph or sentence end cut, and that is not the last, is as long as the budget allows |
| `Splitter.FlushesIff` | internal/chunk/chunk.go:155-168 | a segment is flushed at the first paragraph end in its window before which one more word would exceed the minimum |
| `Splitter.CuttingUnique` | internal/chunk/chunk.go:135-209 | the rules determine the segments |
| `Splitter.CuttingExists` | internal/chunk/chunk.go:135-209 | every text has a cutting |
| `Splitter.EveryWordCovered` | internal/chunk/chunk.go:135-209 | no word is left out |
| `Splitter.NeighboursShare` | internal/chunk/chunk.go:188-208 | starts strictly increase; neighbours share exactly 0 or `overlapWords` words, 0 after a paragraph flush |
| `Splitter.NoParagraphInOverlap` | internal/chunk/chunk.go:155-168 | a paragraph end inside the overlap would already have ended the earlier segment |
| `Splitter.NoNesting` | internal/chunk/chunk.go:135-209 | with an overlap of at most half a window no segment lies inside another |
| `Splitter.EndsGrowIff` | internal/chunk/chunk.go:135-209 | ends strictly increase on every text iff the overlap is at most half a window |
| `Splitter.NestedSegments` | internal/chunk/chunk.go:135-209 | a text whose second segment lies inside its first |
| `Splitter.SegmentBudget` | internal/chunk/chunk.go:125-153 | a segment before the merge has at most max(Size, 2) tokens |
| `Splitter.ResultBudget` | internal/chunk/chunk.go:211-220 | a merged tail has at most MinTokens - 1 tokens more |
| `Splitter.MergedText` | internal/chunk/chunk.go:211-220 | a merged tail holds the words of both segments, from the first word of the one to the last of the other; no other segment changes |
| `Splitter.TextIsSourceWords` | internal/chunk/chunk.go:223-238 | a segment's text is the words of source[Start..End] joined by single spaces |
| `Bytes.BumpRange` | internal/index/fts.go:70-78 | the range up to the bumped last byte holds exactly the keys with that prefix |
| `Bytes.TerminatorRange` | internal/index/fts.go:65-68 | the range up to 0x01 holds exactly the prefix itself and its zero-terminated continuations |
| `Bytes.LessIff` | internal/index/fts.go:65-78 | keys are ordered by the first byte that differs, a prefix before what it begins |
| `FtsStore.ExactRange` | internal/index/fts.go:327-330 | the exact-term range holds precisely that term's postings |
| `FtsStore.PrefixRange` | internal/index/fts.go:334-344 | the prefix range holds precisely the postings of terms with that prefix |
| `FtsStore.ChunkIdFromKey` | internal/index/fts.go:120-128 | chunk ids parse back from posting keys |
| `FtsStore.PostingKeyInjective` | internal/storage/keys/keys.go:126-138 | a posting key determines its term and chunk |
| `FtsStore.IndexKeeps` | internal/index/fts.go:173-216 | indexing makes the store index exactly one chunk more, or none |
| `FtsStore.DeleteKeeps` | internal/index/fts.go:222-270 | deleting with all indexed terms removes exactly that chunk |
| `FtsStore.DeleteUndoesIndexIff` | internal/index/fts.go:173-270 | Delete undoes Index iff the text given has every indexed term and the chunk has fewer than 65536 tokens |
| `FtsStore.RunIndexes` | internal/index/fts.go:173-264 | after any run N and TotalLen are the count and length sum of the indexed set, and postings exist iff indexed |
| `FtsStore.AnyOrder` | internal/index/fts.go:173-216 | the order of indexing leaves no trace in the store |
| `FtsStore.MigrateIsIndexing` | internal/index/fts.go:429-463 | migration of an empty vault builds what indexing every chunk in any order builds |
| `FtsStore.MigrateKeeps` | internal/index/fts.go:429-463 | the migrated store indexes exactly the non-empty chunks |
| `FtsStore.MigrationRestarts` | internal/index/fts.go:429-463 | running it again over what a crash left gives the same store |
| `Fts.FTS.Index` | internal/index/fts.go:173-216 | the new store and indexed set; the IDF cache is emptied |
| `Fts.FTS.Delete` | internal/index/fts.go:222-270 | the new store; the index stays right when the text covers the indexed terms |
| `Fts.FTS.ScanRange` | internal/index/fts.go:349-375 | a key range scan yields the chunks a term hits, with their frequencies |
| `Fts.FTS.CachedIdf` | internal/index/fts.go:80-99 | every cached IDF equals the recomputed one |
| `Fts.FTS.Search` | internal/index/fts.go:275-324 | exactly the BM25 ranking computed from the indexed chunks, with no keys and no cache; what that ranking favours is stated by the lemmas that follow |
| `Fts.AnswerFindsIff` | internal/index/fts.go:288-296 | an unlimited answer names exactly the chunks that have a query term, or, for a term of fewer than four bytes found nowhere, a term it is a prefix of |
| `Fts.LongerScoresLess` | internal/index/fts.go:301-306 | a term's score falls with the length of the chunk |
| `Fts.FrequentScoresMore` | internal/index/fts.go:301-306 | it grows with the frequency, and stays between 0 and 2.2 times the idf |
| `Fts.ScoresWithIdf` | internal/index/fts.go:301-306 | it grows in proportion to the idf |
| `Fts.ScoreScale` | internal/index/fts.go:301-306 | one occurrence in a chunk of average length scores the idf; half the bound takes a frequency of 1.2 there, and a quarter of that in a chunk of hardly any length |
| `Fts.Approaching` | internal/index/fts.go:301-306 | the bound of 2.2 times the idf is approached, whatever the length |
| `Fts.RarerWeighsMore` | internal/index/fts.go:80-97 | a rarer term weighs more, and no term found weighs nothing |
| `Fts.HalfWeighsLn2` | internal/index/fts.go:80-97 | a term found in half of the chunks weighs the logarithm of 2 |
| `Fts.FieldsOutweigh` | internal/index/fts.go:20-59 | an occurrence in a title counts like three in the body, one in a heading like two |
| `Fts.AverageIsMean` | internal/index/fts.go:281-285 | the average length of one chunk is its own, and of two chunks half of their sum |
| `Fts.ScoresAdd` | internal/index/fts.go:287-308 | scores add up over the words of a query |
| `Fts.HigherComesFirst` | internal/index/fts.go:314-319 | of two chunks in an answer the one with the higher score comes first |
| `Fts.ShorterComesFirst` | internal/index/fts.go:301-319 | of chunks hit by one term equally often the shorter comes first |
| `Fts.FrequentComesFirst` | internal/index/fts.go:301-319 | of equally long chunks the one in which the term weighs more comes first |
| `Fts.FTS.MigrateFromChunks` | internal/index/fts.go:429-463 | the batched writes add up to the migrated store, and an index over it with an empty cache is right again |
| `FtsStore.InitializedIff` | internal/index/fts.go:429-475 | a vault still counts as not indexed after any part of a migration, and as indexed after all of it, or after a chunk with terms is indexed |
| `Fts.AnswerUnique` | internal/index/fts.go:275-324 | there is one answer only |
| `Fts.AnswerNamesOnce` | internal/index/fts.go:275-324 | an answer names each chunk once, as fusion expects of its lists |
| `Ranking.RankTable` | internal/index/fts.go:310-319 | sorts a score table by score, then chunk id |
| `Ranking.RankingUnique` | internal/index/fts.go:310-319 | a table has one ranking, whatever the map order |
| `Ranking.HigherRanksFirst` | internal/index/fts.go:314-319 | the higher score ranks first, and of equal scores the smaller chunk id |
| `Retrieval.ReciprocalRankFusionN` | internal/index/retrieval.go:316-334 | every chunk of any list once, by the sum of 1/(k + rank), strictly ordered |
| `Retrieval.FusionIgnoresOrder` | internal/index/retrieval.go:316-340 | the output does not depend on the order of the lists |
| `Retrieval.FusionRespectsDominance` | internal/index/retrieval.go:316-334 | a chunk that beats another in every list ranks above it |
| `Retrieval.TwoRankScore` | internal/index/retrieval.go:316-336 | a chunk at place r of one list and s of another, counted from 1, scores 1/(k+r) + 1/(k+s) |
| `Retrieval.CollapseByDoc` | internal/index/retrieval.go:345-366 | the first hit of each document, cut to k |
| `Retrieval.FirstsAre` | internal/index/retrieval.go:353-365 | exactly the earliest hit of each document survives |
| `Retrieval.FirstsOrdered` | internal/index/retrieval.go:353-365 | one hit per document, order kept |
| `Retrieval.Retrieval.LargerPoolThenCut` | internal/index/retrieval.go:268-288 | searching into a larger pool and cutting to k is searching for k |
| `Retrieval.FilterHits` | internal/index/retrieval.go:103-114 | the hits that pass, in order |
| `Retrieval.FilteredInOrder` | internal/index/retrieval.go:103-114 | the hits kept are those that pass, in the order they had |
| `Retrieval.Retrieval.SetRRFK` | internal/index/retrieval.go:73-77 | a non-positive constant leaves the setting as it was |
| `Retrieval.Retrieval.SetPoolSize` | internal/index/retrieval.go:85-89 | a non-positive size leaves the setting as it was |
| `Retrieval.Retrieval.Search` | internal/index/retrieval.go:120-139 | the collapsed candidates of the mode, cut to k; an error only when embedding fails |
| `Retrieval.Retrieval.SearchNamesDocsOnce` | internal/index/retrieval.go:120-139 | with documents to collapse by, a search names each once |
| `Retrieval.Retrieval.AttemptRerank` | internal/index/retrieval.go:268-306 | reranked best k, or the fallback, or the retrieval error |
| `Retrieval.RerankedOwnScores` | internal/index/retrieval.go:289-306 | every reranked hit carries its own score, best first, and none left out scores better |
| `Retrieval.Retrieval.RerankedByText` | internal/index/retrieval.go:276-302 | and that is the score the reranker gave for its own text |
| `Retrieval.Retrieval.Attempts` | internal/index/retrieval.go:221-249 | the first attempt with max(poolSize, k) candidates, or, iff it failed and the retry is enabled and larger, the retry with twice as many up to 200 |
| `Retrieval.Retrieval.PoolsAsked` | internal/index/retrieval.go:221-240 | the pools asked for, in terms of k, the pool size and 200 |
| `Retrieval.Retrieval.SearchWithRerank` | internal/index/retrieval.go:215-261 | when every attempt to be made failed, exactly what Search returns, iff k >= 1; a reranked answer is that of the attempt made |
| `Retrieval.Retrieval.FallbackIsSearchIff` | internal/index/retrieval.go:283-288 | the fallback equals Search iff k is not 0 |
| `Retrieval.Vector.Add` | internal/index/vector.go:33-40 | stores or replaces one vector |
| `Retrieval.Vector.Delete` | internal/index/vector.go:43-47 | removes one vector |
| `Retrieval.Vector.Query` | internal/index/vector.go:57-86 | the k most similar of the vectors of the query's length, strictly ordered |
| `Retrieval.NearestNamesOnce` | internal/index/vector.go:57-86 | a result of the vector index names each chunk once |
| `Retrieval.NearestAre` | internal/index/vector.go:57-86 | each with its own similarity, and none left out is more similar |
| `Tokens.Base64RoundTrip` | internal/engine/list_documents.go:80-88 | base64url without padding (RFC 4648, section 5) decodes what it encodes |
| `Tokens.DigitsAreUrlSafe` | internal/engine/list_documents.go:80-88 | its alphabet is that of RFC 4648, section 5 |
| `Tokens.GroupIsNumber` | internal/engine/list_documents.go:80-88 | four digits are the 24-bit number of their three bytes |
| `Tokens.TailIsNumber` | internal/engine/list_documents.go:80-88 | one or two bytes at the end are padded with zero bits |
| `Tokens.StampRoundTrip` | internal/engine/list_documents.go:80-99 | RFC 3339 timestamps (section 5.6) with nanoseconds parse back, for every date with a four-digit year |
| `Tokens.StampFields` | internal/engine/list_documents.go:80-88 | the fields of a timestamp in their places, in decimal, with their separators |
| `Tokens.DocTokenRoundTrip` | internal/engine/list_documents.go:80-99 | a document token gives back time and id, iff the id is not empty |
| `Tokens.ChunkTokenRoundTrip` | internal/engine/list_chunks.go:50-69 | a chunk token gives back index and id, iff the id is not empty and the index has 64 bits |
| `Tokens.EncodeCursor` | internal/events/bus.go:175-181 | eight little-endian bytes in base64url |
| `Tokens.DecodeCursor` | internal/events/bus.go:184-193 | accepts exactly the tokens of eight bytes |
| `Tokens.CursorRoundTrip` | internal/events/bus.go:175-193 | every 64-bit sequence number survives its cursor |
| `Tokens.LowByteFirst` | internal/events/bus.go:175-181 | the low byte comes first |
| `Pagination.CutPage` | internal/engine/list_documents.go:174-203 | the first entries past the resume point, and whether more remain |
| `Pagination.SkipIsPast` | internal/engine/list_documents.go:174-184 | the skip loop leaves exactly the entries past the resume point |
| `Pagination.KeysIncrease` | internal/engine/list_documents.go:154-203 | with any changes between pages the returned keys strictly increase |
| `Pagination.StableExactlyOnce` | internal/engine/list_documents.go:154-203 | an item present, matching and unchanged throughout is returned exactly once |
| `Pagination.FixedCorpus` | internal/engine/list_documents.go:154-203 | over a fixed corpus the pages concatenate to the listing |
| `Listing.ListDocuments` | internal/engine/list_documents.go:107-204 | refused iff a field is invalid; else a page of the sorted filtered listing, in order of time and id and not over the page size, and a token iff more remain |
| `Listing.ListChunks` | internal/engine/list_chunks.go:79-150 | the same for the chunks of one document, in order of index and id |
| `Listing.DocHasAnyTag` | internal/engine/list_documents.go:62-76 | whether some tag is wanted |
| `Listing.DocTokenResumes` | internal/engine/list_documents.go:80-99 | a document's token resumes right after that document |
| `Listing.ChunkTokenResumes` | internal/engine/list_chunks.go:50-69 | a chunk's token resumes right after that chunk |
| `Listing.InstantInjective` | internal/engine/list_documents.go:164-171 | equal instants are equal timestamps, so the order on (time, id) is total |
| `Listing.InstantIsOrder` | internal/engine/list_documents.go:164-171 | the order is that of year, month, day, hour, minute, second and nanosecond |
| `Listing.WantedIff` | internal/engine/list_documents.go:124-162 | what the filters keep: the status, a later time of ingestion, one of the tags |
| `Listing.BlankTokenStarts` | internal/engine/list_documents.go:131-141 | a blank token is one that starts at the beginning |
| `Listing.DrainDocuments` | internal/engine/bridge_source.go:19-34 | the drain loop ends, and returns exactly the listing |
| `Listing.DrainChunks` | internal/engine/bridge_source.go:36-51 | the same for chunks |
| `Listing.FollowTokens` | internal/engine/list_documents.go:107-204 | a chain of requests over changing scans, each with the token of the page before, returns the pages of that chain |
| `Listing.DrainChanging` | internal/engine/list_documents.go:107-204 | following the tokens through any changes, a document that matches and stays unchanged is returned exactly once, and no record twice; one request more than it returns documents is enough |
| `IngestProtocol.NoAckedWorkLost` | internal/pipeline/pipeline.go:484-515 | in every interleaving with crashes whose queueings are safe, an acknowledged chunk is stored and has an embedding or a queue record |
| `IngestProtocol.QueueingLosesIff` | internal/pipeline/pipeline.go:495-505 | in any state such a run reaches, queueing a stored chunk and acknowledging it can lead to its loss iff that queueing was not safe |
| `IngestProtocol.UnsafeLoses` | internal/embedproc/processor.go:211-334 | from any state, an unsafe queueing has a continuation, safe in every step, that loses the chunk |
| `IngestProtocol.BothLossesHappen` | internal/pipeline/delete.go:46-58 | both kinds of unsafe state are reached by a chunk stored, queued and acknowledged, and then stored again |
| `IngestProtocol.ReachedByRun` | internal/pipeline/pipeline.go:495-505 | the runs that reach them begin with the chunk's storing, queueing and acknowledgement |
| `IngestProtocol.NoLossStep` | internal/embedproc/processor.go:211-334 | every safe step of ingest, re-ingest, deletion, processor and restart keeps the invariant |
| `IngestProtocol.IndexLagsOnlyQueued` | internal/embedproc/processor.go:211-334 | in every interleaving with crashes whose queueings and copies are tidy, a stored and queued chunk is in the queue, mid-scatter, or embedded with its vector in the index |
| `IngestProtocol.QueueingLagsIff` | internal/pipeline/pipeline.go:495-505 | in any state such a run reaches, queueing a stored chunk can lead to its being off the queue without its vector in the index iff that queueing was not tidy |
| `IngestProtocol.UntidyLags` | internal/embedproc/processor.go:242-314 | from any state, an untidy queueing has a continuation, tidy in every step, after which the index lags |
| `IngestProtocol.LagHappens` | internal/pipeline/delete.go:46-58 | such a state is reached, by a chunk whose queueing loses nothing |
| `IngestProtocol.CopyLagsIff` | internal/pipeline/reingest.go:83-96 | in any state a tidy run reaches, copying a kept record to a chunk can leave the index behind iff the copy was not tidy |
| `IngestProtocol.RecordsAreOwn` | internal/pipeline/reingest.go:78-96 | in every run, with any restarts and models, each record is what its own model gives the chunk's own text, and a copy is of the current model |
| `IngestProtocol.CaptureReachesCopy` | internal/pipeline/reingest.go:28-96 | a record captured from a chunk reaches the chunk of the same text it is copied to, if its model is still current; otherwise nothing is copied |
| `IngestProtocol.RestartLosesCaptures` | internal/pipeline/reingest.go:28-44 | a crash loses what was captured |
| `IngestProtocol.NoStaleWithoutChange` | internal/embedproc/processor.go:302-314 | while the model stays the same, every record is of that model |
| `IngestProtocol.FastPathKeepsModel` | internal/embedproc/processor.go:242-250 | the fast path dequeues a chunk with the record it finds: it ends up embedded by the current model iff it was already |
| `IngestProtocol.StaleVectorStays` | internal/embedproc/processor.go:242-250 | a run with a crash and another model, after which a chunk is off the queue with the older model's vector |
| `IngestProtocol.RecoversAndDrains` | internal/pipeline/load.go:48-65 | from any state of a safe run, crash, restart and an undisturbed drain leave every acknowledged chunk failed, or off the queue with its embedding in the index |
| `IngestProtocol.RestartRepairs` | internal/pipeline/load.go:48-65 | right after a restart every stored and queued chunk is in the queue, or embedded with its vector in the index, whatever the index had come to |
| `IngestProtocol.DrainedOrFailed` | internal/embedproc/processor.go:211-264 | a drain that ends on an empty batch leaves every earlier chunk embedded or marked failed |
| `IngestProtocol.OrphansLeave` | internal/embedproc/processor.go:232-238 | a scan drops the queue record of a chunk that is gone, and changes nothing else |
| `IngestProtocol.BatchesAreSmall` | internal/embedproc/processor.go:217-275 | in every run at most 32 chunks are embedded together, and what is written or marked is of them |
| `IngestProtocol.Vault.StoreDocument` | internal/pipeline/pipeline.go:495-505 | the loop performs, per chunk, the chunk write and then the queue write |
| `IngestProtocol.StoredMayBeAcked` | internal/pipeline/pipeline.go:495-505 | when it returns every chunk is stored and queued |
| `IngestProtocol.Vault.DeleteChunks` | internal/pipeline/delete.go:46-65 | the loop performs, per chunk its scan found, the three removals in order |
| `IngestProtocol.DeletedIsGone` | internal/pipeline/delete.go:46-65 | when it returns no chunk, embedding or vector of them is left, and no other chunk is gone |
| `IngestProtocol.DeletesOnlyFound` | internal/pipeline/delete.go:46-58 | a deletion removes only what is stored and no other deletion has in hand |
| `IngestProtocol.Vault.LoadIndex` | internal/pipeline/load.go:48-65 | the loop over the records performs the restart: the index becomes their image |
| `Processor.Processor.CollectBatch` | internal/embedproc/processor.go:217-260 | orphans leave, copied embeddings that are not empty reach the index and leave, others are collected; a batch of fewer than 32 is all that is still pending |
| `Processor.CollectedMeans` | internal/embedproc/processor.go:231-252 | what is collected has no vector, or an empty one; a stored chunk that left the queue in the scan had one, and the index holds it |
| `Processor.Processor.EmbedOneByOne` | internal/embedproc/processor.go:174-204 | each text alone; failures become final iff some text was answered with an entry, be it a missing one |
| `Processor.Processor.Scatter` | internal/embedproc/processor.go:302-314 | record, vector and queue record of exactly the items that obtained a vector |
| `Processor.Processor.EmbedPass` | internal/embedproc/processor.go:266-314 | one pass: whole new state for a refusal, a success and a failure, with the breaker |
| `Processor.AnswersLandInPlace` | internal/embedproc/processor.go:302-314 | when a batch is answered, each item gets the vector at its own position; an item without one stays as it was |
| `Processor.FailuresAreIsolated` | internal/embedproc/processor.go:174-204 | when a batch fails, every item whose own call gives a vector is embedded with it, and the others are marked failed iff some text was answered |
| `Processor.PassProgress` | internal/embedproc/processor.go:211-334 | a pass shortens the pending queue iff it obtains a vector or makes its failures final |
| `Processor.FailureUsesOne` | internal/embedproc/circuit.go:66-76 | a failed batch uses up one of the failures the breaker still admits |
| `Processor.Processor.ProcessBatch` | internal/embedproc/processor.go:211-334 | if every answer holds a vector for one of its texts the drain ends, by pending records and then failures left; nothing is lost, it ends drained or refused, and whatever it stored for a chunk one of its calls gave for that chunk's prefixed text |
| `Processor.StuckIff` | internal/embedproc/processor.go:278-314 | an admitted pass changes nothing iff its answer holds no vector for any of its texts, or the batch fails and no single text is answered |
| `Processor.StuckForever` | internal/embedproc/processor.go:214-333 | after any number of passes answered without a vector the state is as at first, and the breaker admits the batch again |
| `Lifecycle.MarkOnlyUnderLock` | internal/pipeline/reingest.go:28-44 | the suppression mark is set exactly while a re-ingest holds the lock between capture and delete |
| `Lifecycle.OneDeletedEach` | internal/pipeline/delete.go:80-115 | each plain delete that finds a record publishes exactly one DELETED, and nothing else does |
| `Lifecycle.GoneAfterDeletedIff` | internal/pipeline/delete.go:80-115 | the record is gone right after DELETED iff no store landed since its removal |
| `Lifecycle.NoResurrection` | internal/pipeline/workers.go:276-321 | after such a DELETED nothing writes the record or publishes EMBEDDED before the next store |
| `Lifecycle.StoreInsideDeleteResurrects` | internal/pipeline/pipeline.go:484-488 | a store that lands inside the delete puts EMBEDDED after DELETED |
| `Lifecycle.StoreInsideDelete` | internal/pipeline/delete.go:94-115 | a run that reaches such a state |
| `Lifecycle.SilentRemovalIff` | internal/pipeline/delete.go:86-115 | a delete removes a record without DELETED iff it is a re-ingest's or had found none; then the record was stored after it looked |
| `Lifecycle.InvRun` | internal/pipeline/delete.go:80-115 | the invariant behind these, over every interleaving |
| `Lifecycle.PlainDelete` | internal/pipeline/delete.go:80-115 | an uninterrupted delete removes the record, and publishes DELETED iff there was one |
| `Lifecycle.ReingestIsSilent` | internal/pipeline/reingest.go:28-44 | the delete of a re-ingest removes it and publishes nothing |
| `Lifecycle.WorkerWrites` | internal/pipeline/workers.go:252-321 | a worker rewrites the record it finds, and publishes EMBEDDED when it marks it so |
| `Lifecycle.OthersWait` | internal/pipeline/delete.go:80-97 | who holds the document lock, or the mutex, holds it alone |

## Left out

- Fts.FTS.Search: assumes every indexed chunk has fewer than 65536 tokens, because longer lengths are stored modulo 65536; what a wrapped length does to a score is not stated.
- Fts.FTS.Index: terms are given; lower-casing, Unicode letter classes and stop words of the tokenizer are not part of this model, and frequencies are reals where the source stores 32-bit floats.
- Splitter.Split: white space is space, tab, line feed and carriage return; the source counts tokens with Unicode white space. Token counts use exact rationals.
- Sections.ResolveBreadcrumb: asks for distinct translated offsets, since the source sorts equal offsets in no defined order.
- IngestProtocol.NoAckedWorkLost: holds for runs all of whose queueings are safe; that this is the exact condition in every state they reach is `IngestProtocol.QueueingLosesIff`.
- IngestProtocol.IndexLagsOnlyQueued: holds for runs all of whose queueings and copies are tidy; that this is the exact condition in every state they reach is `IngestProtocol.QueueingLagsIff` and `IngestProtocol.CopyLagsIff`. It speaks of chunks stored and queued since their last deletion, since an embedding scattered for a chunk deleted meanwhile is an orphan of which nothing is claimed.
- IngestProtocol.FastPathKeepsModel: vectors are not empty there; what the processor does with a record whose vector is empty is in `Processor.Processor.CollectBatch`.
- IngestProtocol.RecoversAndDrains: the drain after the restart is not disturbed by ingest or deletion; that it ends is `Processor.Processor.ProcessBatch`.
- Processor.Processor.ProcessBatch: the termination result assumes that every answer holds a vector for one of its texts, no enqueueing during the drain and no clock jump past the reset time.
- Retrieval.Retrieval.SearchWithRerank: k is not negative, since the source cuts a slice with it; the order of equal reranker scores is left open, as the source's sort is not stable.
- Tokens.DocTokenRoundTrip: of the timestamp parser only the UTC forms the formatter writes are modelled; years have four digits.
- Listing.DrainDocuments: ids are not empty, as an empty id makes a token that cannot be read back.
- Listing.ListDocuments: blank fields are recognised by ASCII white space, where the source trims Unicode white space.
- Delta.CopiesAreCurrent: SHA-256 is taken as injective and the embedder as deterministic, with one prefix convention.
- Cosine similarity, logarithms, embedders and rerankers are function parameters; floating-point rounding is not modelled.
- Clearing a vault (which resets the epoch), several vaults over one vector index, near-duplicate and enrichment sidecars inside cached answers, and the 64-bit hashing of cache keys.
- Caption chunks, quarantine and near-duplicate records, and the linked list that ties neighbouring chunks.
- The content-hash and path indexes of a document, failing storage writes, malformed stored records, and 64-bit overflow of counters.
- In-order delivery of events under concurrent publishers: sequence numbers are taken before the lock.
- HTTP, gRPC and MCP interfaces, command line, configuration, metrics, authentication and the watcher.
