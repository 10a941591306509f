# semantic-search core, modelled in Dafny

This project models the indexing and search core of a small semantic search
library for web pages. It has four parts:

- **Text chunker** (`TextChunker`, `text_chunker.dfy`). It cuts a page's
  content and title into chunks, using one of three strategies:
  - grouping sentences up to a word limit, with an overlap of sentences;
  - "mixed" chunking when some sentence is over the limit;
  - a paragraph/word-window fallback when no sentence is found.

  Sentence splitting has an ordinary pass and an aggressive pass. The
  aggressive pass cuts oversized sentences into overlapping word windows.
- **Vector database** (`VectorStore`, `vector_store.dfy`). It holds an
  ordered list of `{id, vector}` entries and a map from vector id to document
  metadata. Ids come from a counter. It does a full-scan similarity search,
  a stable sort by descending score and a `topK` cut. It also removes by page
  and lists page ids and the documents of a page.
- **Embedding engine** (`Embeddings`, `embeddings.dfy`):
  - the E5 prefix rule (`query: ` / `passage: `);
  - role-tagged cache keys;
  - a bounded cache that evicts its oldest key;
  - single and batch embedding through the cache.

  The model itself is a parameter: a function from text to a vector, or to
  a failure.
- **Content indexer** (`Indexer`, `indexer.dfy`). It owns the other three and
  records indexed pages. It indexes a page (chunk, embed the chunks as
  passages, store each chunk, record the page) and indexes batches. It
  answers searches by embedding the query and taking the database's `3 * topK`
  best hits. It then keeps one hit per page (the first with the page's highest
  score), takes the first `topK`, and formats each with a snippet. It can also
  remove a page, clear everything and report statistics.

Two shared modules support them:

- `Common` (`common.dfy`) models the JavaScript string primitives the code
  relies on. These are `trim`, `split(/\s+/)`, `join(' ')`, `includes`,
  `startsWith` and `toLowerCase`. Strings are sequences of Dafny `char`s,
  which are Unicode scalar values.
- `Sorting` (`sorting.dfy`) models `Array.prototype.sort` with the comparator
  `b.similarity - a.similarity`. This is a stable sort by descending key.

Each part follows the same pattern:

- The state of an object is also a plain value: `Config`, `Store`, `Engine`,
  `PageIndex` or `Components`.
- Specification functions on those values say what each operation computes,
  and lemmas state what the code promises of them.
- Classes with the source's fields and loops (`TextChunker`,
  `VectorDatabase`, `SemanticEngine`, `ContentIndexer`) are proved to compute
  those functions. The form is `ensures State() == F(old(State()), ...)` or
  `ensures result == F(...)`.

Numbers are mathematical reals and integers. Nothing here was executed.

In a few places the code and the system's own documentation disagree; the
model follows the code:

- `generateSnippet` counts every piece of `query.toLowerCase().split(/\s+/)`.
  That includes repeated words and, for a query with leading or trailing
  whitespace, the empty piece, which every window contains. It does not count
  distinct query words.
- Chunk indices are not always gap-free. In mixed chunking, all windows of an
  oversized sentence share the sentence's index. If every window of such a
  sentence is too short, that index is skipped.

## Model

| member | source | states |
|---|---|---|
| Common.TrimTrims | nodes/text-chunker.js:33-36 | `trim` leaves no whitespace at either end and never lengthens. It is the identity on trimmed text. It yields the empty string exactly when the text is all whitespace, which is when `chunkText` returns early. |
| Common.SplitWords | nodes/text-chunker.js:224 | No piece of `split(/\s+/)` contains whitespace. From a trimmed, non-empty text, every piece is a non-empty word. |
| Common.SplitAppend | nodes/text-chunker.js:142-143 | Joining two texts with a single space splits as the two splits concatenated, provided the space is the only whitespace at the seam. So word counts add up. |
| Common.SplitJoin | nodes/text-chunker.js:188-189 | Round trip: splitting space-joined clean words gives the words back. |
| Common.WordCountOfJoin | nodes/text-chunker.js:188-196 | A chunk made of a word window has as many words as the window, so its reported `wordCount` is its text's word count. |
| Common.JoinTrimmed | nodes/text-chunker.js:188-191 | Joined clean words form a trimmed, non-empty text. |
| Common.ToLower | nodes/content-indexer.js:253-254 | Lower-casing keeps the length. So positions in the lower-cased text are positions in the original, which the snippet relies on. |
| Sorting.SortDescPermutes | nodes/vector-database.js:131-132 | The sort returns a permutation of its input (same multiset, same length). |
| Sorting.SortDescMember | nodes/vector-database.js:131-132 | An element is in the sorted output exactly when it is in the input. |
| Sorting.SortDescSorted | nodes/vector-database.js:131-132 | The output is ordered by non-increasing similarity. |
| Sorting.SortDescStable | nodes/vector-database.js:131-132 | Stability: elements with equal keys keep their input order. |
| Sorting.SortDescTop | nodes/vector-database.js:130-132 | Every element not among the first m of the sorted output has a key no greater than the m-th one. |
| Sorting.SortDescDistinct | nodes/content-indexer.js:242 | Sorting keeps a projection that is distinct across the input distinct (one hit per page stays one hit per page). |
| TextChunker.NewConfig | nodes/text-chunker.js:7-12 | Each numeric option that is 0 or missing falls back to 80, 1 or 20. `includeTitle` is on unless it is given as `false`. The result is a valid configuration (all limits positive). |
| TextChunker.TextChunker.constructor | nodes/text-chunker.js:7-12 | The chunker's configuration is that of `NewConfig`, and it is valid. |
| TextChunker.ChunkTitle | nodes/text-chunker.js:23-36 | A title chunk exists exactly when `includeTitle` holds and the trimmed title is longer than 5 characters. When it exists it comes first, with the trimmed title, source `title`, index 0 and the title's word count. No other chunk has source `title`. Empty content yields only the title chunks. |
| TextChunker.ChunkBody | nodes/text-chunker.js:20-56 | Under every strategy the title chunks come first. They are followed by chunks with trimmed, non-empty text whose `wordCount` is the text's own word count, at most the larger of `maxWordsPerChunk` and 150. |
| TextChunker.ChunkIndices | nodes/text-chunker.js:20-56 | Chunk indices never decrease. Off the mixed path, each chunk's index is its position in the output. |
| TextChunker.TextChunker.ChunkText | nodes/text-chunker.js:20-56 | Computes `ChunkSpec`, the dispatch to the three strategies, about which `ChunkTitle`, `ChunkBody` and `ChunkIndices` are proved. |
| TextChunker.SentencesClean | nodes/text-chunker.js:61-82 | Every sentence of either splitting pass is trimmed and longer than 15 characters. |
| TextChunker.CleanPiecesClean | nodes/text-chunker.js:71-74 | Map-trim-filter leaves only trimmed pieces longer than 15 characters. |
| TextChunker.TextChunker.SplitIntoSentences | nodes/text-chunker.js:61-82 | Computes `Sentences`. The ordinary pass is used unless it finds fewer than 3 sentences in a text longer than 500 characters, in which case the aggressive pass is used. |
| TextChunker.TextChunker.AggressiveSentenceSplitting | nodes/text-chunker.js:87-117 | Computes `AggressiveSplit`: the first-stage pieces, each expanded by `ExpandSentence`. |
| TextChunker.ExpandFromClean | nodes/text-chunker.js:97-116 | Expanding oversized sentences into windows keeps every sentence trimmed and longer than 15 characters. |
| TextChunker.TextChunker.ExpandSentences | nodes/text-chunker.js:99-114 | The loop over first-stage sentences computes `ExpandFrom` (loop invariant through `ExpandRound`). |
| TextChunker.TextChunker.AppendSentence | nodes/text-chunker.js:100-113 | A sentence within the word limit is kept whole. A longer one is replaced by its overlapping windows. |
| TextChunker.TextChunker.AppendOverlappingWindows | nodes/text-chunker.js:105-112 | The window loop appends the joined windows of `maxWordsPerChunk` words, advancing by `maxWordsPerChunk - 5` (at least 1), longer than 15 characters. |
| TextChunker.TextChunker.AppendLongWindow | nodes/text-chunker.js:107-111 | One round: what it appends, followed by the rest of the loop, is what the loop produces from this position. |
| TextChunker.LongTextsClean | nodes/text-chunker.js:107-111 | Joined windows of clean words kept by the 15-character filter are trimmed sentences longer than 15 characters. |
| TextChunker.WindowAt | nodes/text-chunker.js:106-107 | Window number k is the slice of `size` words, fewer at the end, starting `k * step` words in. |
| TextChunker.WindowsOverlap | nodes/text-chunker.js:106-107 | Windows that advance by `step <= size` overlap: the words of window k from position `step` on are a prefix of window k + 1. |
| TextChunker.AggressiveOverlap | nodes/text-chunker.js:105-107 | In the aggressive pass, a full window ends with the 5 words the next window starts with. |
| TextChunker.AsWrittenCursorStalls | nodes/text-chunker.js:106 | As written, with `maxWordsPerChunk <= 5` the cursor never moves forward. It stays inside the word list forever, so the loop does not terminate. |
| TextChunker.WindowsClean | nodes/text-chunker.js:227-229 | Windows of clean words are non-empty lists of at most `size` clean words. |
| TextChunker.WindowsCover | nodes/text-chunker.js:187-188 | Windows whose step equals their size cover the words exactly once, in order. |
| TextChunker.OffsetIsProduct | nodes/text-chunker.js:187 | After j rounds the loop variable `i` is `j * size`. |
| TextChunker.OffsetPart | nodes/text-chunker.js:194 | The part number `Math.floor(i / size)` of window j is j. |
| TextChunker.KeepWindowsIndices | nodes/text-chunker.js:187-199 | Kept window chunks are longer than `minLength` and carry the loop's source kind. An oversized sentence's windows all share its index; other windows are numbered consecutively. There are no more chunks than windows. |
| TextChunker.KeepWindowsWords | nodes/text-chunker.js:188-196 | Chunks kept from windows of clean words have trimmed, non-empty text whose word count equals the reported `wordCount`, which is at most the window size. |
| TextChunker.KeptPartsIncrease | nodes/text-chunker.js:187-191 | The part numbers of the windows a loop keeps lie within the loop's windows and strictly increase. |
| TextChunker.KeptPartsExact | nodes/text-chunker.js:187-191 | A window is kept exactly when its joined text is longer than `minChunkLength`. |
| TextChunker.KeepWindowsPick | nodes/text-chunker.js:187-199 | The filter of a window loop: there are as many chunks as kept windows. Kept chunk m has the text and word count of the window with the m-th kept part number, and its source names that part number. Part numbers count every window, including the dropped ones. |
| TextChunker.WindowChunksGood | nodes/text-chunker.js:186-200 | The chunks of any window loop are good chunks within the window size and longer than `minLength`, with the loop's source kind. An oversized sentence's chunks share its index; other chunks are numbered consecutively. |
| TextChunker.WindowChunksFacts | nodes/text-chunker.js:186-200 | The chunks of any window loop (an oversized sentence, a paragraph or the whole content) meet all of the above at once. Window k is `words.slice(k * size, k * size + size)`. Kept chunk m is made from window p[m], with its text, its word count and part number p[m]. Here p lists, in increasing order, exactly the windows whose text is longer than `minLength`. |
| TextChunker.TextChunker.AppendWindows | nodes/text-chunker.js:187-199 | The shared window loop appends exactly `WindowChunks`. The chunk index it returns advances per kept chunk, except for an oversized sentence, whose windows share the index. |
| TextChunker.TextChunker.AppendWindow | nodes/text-chunker.js:188-198 | One round of the window loop, with part number `i / size`, stated as a step of `KeepWindows`. |
| TextChunker.GroupTextFacts | nodes/text-chunker.js:142-143 | A group of trimmed sentences is empty only if it takes no sentence. Otherwise it is trimmed and non-empty, with as many words as its sentences together (`currentWordCount`). |
| TextChunker.GatherEndBound | nodes/text-chunker.js:133-145 | When no sentence is over the limit, the inner gathering loop never collects more than `maxWordsPerChunk` words. |
| TextChunker.GroupNext | nodes/text-chunker.js:159 | The cursor always moves forward and stays within the sentences, so the grouping loop terminates. |
| TextChunker.GroupCursor | nodes/text-chunker.js:133-159 | Each group takes at least one sentence. The next group starts after the current start and no later than its end. When the group is longer than `overlapSentences`, it starts exactly `overlapSentences` sentences before the end. |
| TextChunker.GroupEmittedFacts | nodes/text-chunker.js:148-156 | A group emits at most one chunk: its trimmed text, if that is longer than `minChunkLength`, with the next index and a matching `content_chunk_` source. |
| TextChunker.GroupChunks | nodes/text-chunker.js:122-163 | On the grouping path, every chunk is a good chunk of at most `maxWordsPerChunk` words and longer than `minChunkLength`. Chunks are numbered consecutively from the existing count, with matching sources. |
| TextChunker.TextChunker.GroupSentencesIntoChunks | nodes/text-chunker.js:122-163 | The outer loop computes the existing chunks followed by `GroupFrom` (invariant through `GroupRound`). |
| TextChunker.TextChunker.GatherGroup | nodes/text-chunker.js:128-145 | The inner loop returns the group's text, word count and the number of sentences used, as defined by `GroupEnd`, `GroupText` and `GroupWords`. |
| TextChunker.SentenceChunksGood | nodes/text-chunker.js:173-201 | A sentence within the limit becomes exactly one `sentence_chunk_` chunk with its trimmed text and its own word count. An oversized one is cut into non-overlapping windows that cover its words. Every chunk is a good chunk within the word limit and carries the sentence's index. |
| TextChunker.SentenceChunksFacts | nodes/text-chunker.js:173-201 | A sentence within the limit becomes exactly one `sentence_chunk_` chunk with its own word count. An oversized one is cut into non-overlapping windows that cover its words. Its chunks are exactly the windows longer than `minChunkLength`, in order. Each has the window's text and word count, the source `long_sentence_chunk_{index}_part_{k}` for its window k, and the sentence's index. |
| TextChunker.MixedFromParts | nodes/text-chunker.js:172-202 | The chunks of mixed chunking are the per-sentence chunk lists, concatenated in sentence order. |
| TextChunker.MixedPartsLength | nodes/text-chunker.js:172 | There is one chunk list per sentence from the starting sentence on. |
| TextChunker.MixedPartAt | nodes/text-chunker.js:172-201 | The list for sentence j is that sentence's `SentenceChunks` at index `start + (j - k)`: every earlier sentence advances `chunkIndex` by exactly one, whatever it emits. |
| TextChunker.MixedSplit | nodes/text-chunker.js:170-202 | Sentence k' contributes exactly its own `SentenceChunks` at index `start + (k' - k)`, between the chunks of the sentences before it and those of the sentences after it. |
| TextChunker.MixedChunks | nodes/text-chunker.js:168-205 | Mixed chunking yields good chunks within the word limit. Indices never decrease and lie from the start to below the start plus the number of sentences. |
| TextChunker.TextChunker.MixedChunking | nodes/text-chunker.js:168-205 | The loop computes the existing chunks followed by `MixedFrom`. |
| TextChunker.TextChunker.SentenceChunking | nodes/text-chunker.js:173-201 | One round of the loop appends exactly `SentenceChunks` for the sentence. |
| TextChunker.LastNewline | nodes/text-chunker.js:216 | Finds the last line feed in a range, or -1 when there is none. |
| TextChunker.SeparatorEnd | nodes/text-chunker.js:216 | A separator `\n\s*\n` starting at a position is at least two characters long and ends within the text. |
| TextChunker.ParagraphWordsClean | nodes/text-chunker.js:222-224 | A paragraph's words, when the trimmed paragraph is non-empty, are clean words. |
| TextChunker.ParagraphChunksFacts | nodes/text-chunker.js:224-240 | A paragraph's chunks are good chunks of at most 150 words, longer than `minChunkLength`, numbered consecutively, with `paragraph_` sources. |
| TextChunker.ParagraphsChunks | nodes/text-chunker.js:219-242 | The chunks of all paragraphs together meet the same facts, numbered on across paragraphs. |
| TextChunker.FallbackChunks | nodes/text-chunker.js:210-265 | The fallback keeps the existing chunks and appends good chunks of at most 150 words, longer than `minChunkLength`, each indexed by its position. |
| TextChunker.TextChunker.FallbackChunking | nodes/text-chunker.js:210-265 | Computes `FallbackSpec`: paragraphs when there is more than one long paragraph, otherwise windows over the whole content. |
| TextChunker.TextChunker.ParagraphsChunking | nodes/text-chunker.js:221-242 | The `forEach` over the long paragraphs computes `ParagraphsFrom` over their word lists. |
| TextChunker.TextChunker.ParagraphChunking | nodes/text-chunker.js:222-241 | The callback for one paragraph appends its 150-word window chunks and returns the advanced index. |
| VectorStore.NewStore | nodes/vector-database.js:8-23 | A 0 (or missing) dimension or capacity takes 384 or 10000. The new store is empty with counter 0 and satisfies the representation invariant. |
| VectorStore.VectorDatabase.constructor | nodes/vector-database.js:8-23 | The new database's state is `NewStore` and its invariant holds. |
| VectorStore.DocumentCount | nodes/vector-database.js:202-203 | In a valid store there are exactly as many documents as vectors, and at most `maxElements`. |
| VectorStore.AddOutcome | nodes/vector-database.js:46-90 | An insert succeeds exactly when the embedding has the configured dimension and the store is below capacity. A wrong dimension is reported as such. A rejected insert changes nothing. An accepted one returns the old counter as a fresh id, appends one vector and one document under it, and bumps the counter. |
| VectorStore.AddValid | nodes/vector-database.js:46-90 | Insertion keeps the representation invariant: ids increasing, below the counter, equal to the document keys, each vector of the configured dimension, within capacity. |
| VectorStore.VectorDatabase.AddDocument | nodes/vector-database.js:46-90 | Computes `Add` on the database's fields and keeps the invariant. |
| VectorStore.NormFacts | nodes/vector-database.js:154-158 | A squared magnitude is never negative. It is 0 for the zero vector and positive when some component is non-zero. |
| VectorStore.DotSymmetric | nodes/vector-database.js:154-155 | The dot product is symmetric. |
| VectorStore.SimilarityOfZero | nodes/vector-database.js:160-164 | An all-zero vector scores 0 against any vector, in either position (the zero-magnitude rule). |
| VectorStore.SimilaritySymmetric | nodes/vector-database.js:149-167 | The score is symmetric in its two vectors. |
| VectorStore.SelfSimilarity | nodes/vector-database.js:149-167 | A non-zero vector scores exactly 1 against itself. |
| VectorStore.SimilaritySign | nodes/vector-database.js:149-167 | For non-zero vectors the score is positive, negative or zero exactly when the dot product is, as the cosine is. |
| VectorStore.VectorDatabase.CosineSimilarity | nodes/vector-database.js:149-167 | The accumulating loop computes `Similarity` of the two vectors. |
| VectorStore.ScoresFacts | nodes/vector-database.js:115-128 | In a valid store every vector has a document. So the k-th candidate is the k-th vector's document with its score and distance `1 - similarity`, and there is one candidate per vector. |
| VectorStore.ScoresIncreasing | nodes/vector-database.js:117-128 | The candidates come in increasing vector-id order. |
| VectorStore.SearchFacts | nodes/vector-database.js:95-144 | A missing or wrong-length query is an error, and only then. Otherwise there are `min(topK, n)` results ranked 1, 2, ..., ordered by non-increasing similarity, with ties in insertion order. Each result is a stored vector's candidate. It is an exact top-`topK`: every candidate left out scores no higher than the last result. An empty store gives no results. |
| VectorStore.RankedSorted | nodes/vector-database.js:130-141 | Ranking the first m sorted candidates gives m results numbered 1, 2, ..., by non-increasing similarity with ties in id order, each one of the candidates. |
| VectorStore.RankedTop | nodes/vector-database.js:130-141 | No candidate outside the first m sorted ones scores above the last one ranked. |
| VectorStore.SearchTop | nodes/vector-database.js:130-144 | The search is an exact top-`topK`: every candidate left out scores no higher than the last result. |
| VectorStore.SearchComplete | nodes/vector-database.js:130-137 | When `topK` covers the store, every candidate is among the results. |
| VectorStore.VectorDatabase.Search | nodes/vector-database.js:95-144 | The scan, sort, slice and rank compute `SearchSpec`. |
| VectorStore.FindIndex | nodes/vector-database.js:179 | `findIndex` returns -1 exactly when no entry has the id, and otherwise the first entry with it. |
| VectorStore.RemovePageValid | nodes/vector-database.js:172-185 | Removal keeps the representation invariant. |
| VectorStore.RemovePageFacts | nodes/vector-database.js:172-185 | Removal keeps the invariant. A document is kept exactly when it was stored and is not of the page, and is kept unchanged. A vector is kept exactly when it was stored and its document is not of the page. The kept vectors are the old ones at the kept positions, in order. The counter is untouched, and nothing changes when no document is of the page. |
| VectorStore.KeptPositionsFacts | nodes/vector-database.js:174-184 | The vectors the loop keeps are the input's at the kept positions, in order and unchanged; a position is kept exactly when its vector's document is not of the page. |
| VectorStore.KeepVectorsMember | nodes/vector-database.js:174-184 | A vector survives exactly when it was stored and its document is not of the page. |
| VectorStore.RemovePageNoop | nodes/vector-database.js:172-185 | Removing a page that has no documents leaves the store as it is. |
| VectorStore.RemoveRoundsState | nodes/vector-database.js:174-184 | After k rounds of the loop over the Map's entries, the visited vectors are filtered and the rest are untouched. Exactly the visited documents of the page are gone. |
| VectorStore.RemoveRoundsDone | nodes/vector-database.js:172-185 | After the last round, the loop's state is `RemovePage`. |
| VectorStore.VectorDatabase.RemoveByPageId | nodes/vector-database.js:172-185 | The in-place loop (delete and splice) computes `RemovePage` and keeps the invariant. |
| VectorStore.VectorDatabase.RemoveEntry | nodes/vector-database.js:175-183 | One round: delete the document and splice out its vector when it is of the page. |
| VectorStore.ClearStore | nodes/vector-database.js:190-195 | Clearing empties both structures, resets the counter, keeps the settings and the invariant. |
| VectorStore.VectorDatabase.Clear | nodes/vector-database.js:190-195 | Computes `ClearStore` on the fields. |
| VectorStore.VectorDatabase.GetStats | nodes/vector-database.js:200-208 | Reports the vector count and the settings. In a valid database the document count equals the vector count and is within capacity. |
| VectorStore.ValuesMember | nodes/vector-database.js:215 | The scan over `documents.values()` visits exactly the stored documents. |
| VectorStore.DistinctPageIdsFacts | nodes/vector-database.js:214-218 | `Array.from(new Set(...))` has no duplicates and holds exactly the page ids that occur. |
| VectorStore.PageIdsFacts | nodes/vector-database.js:213-219 | `getAllPageIds` has no duplicates and lists exactly the page ids of the stored documents. |
| VectorStore.VectorDatabase.GetAllPageIds | nodes/vector-database.js:213-219 | The loop computes the distinct page ids in Map order. |
| VectorStore.DocumentsOfPage | nodes/vector-database.js:224-232 | `getDocumentsByPageId` returns exactly the stored documents of the page. |
| VectorStore.VectorDatabase.GetDocumentsByPageId | nodes/vector-database.js:224-232 | The loop computes the page's documents in Map order. |
| Embeddings.NewEngine | nodes/semantic-engine.js:9-22 | An empty model name, a 0 dimension and a 0 cache size fall back to `Xenova/multilingual-e5-small`, 384 and 1000. The cache starts empty. |
| Embeddings.SemanticEngine.constructor | nodes/semantic-engine.js:9-22 | The engine's state is `NewEngine`, with the given model loaded. |
| Embeddings.AddPrefix | nodes/semantic-engine.js:198-211 | The text is changed exactly when the model name contains `e5`, the role is `query` or `passage`, and the text does not already start with `role:`. It is then changed to `role: text`. For an E5 model and those roles the result always starts with the tag. |
| Embeddings.AddPrefixIdempotent | nodes/semantic-engine.js:198-211 | Prefixing twice is prefixing once. |
| Embeddings.CacheKeyInjective | nodes/semantic-engine.js:216-218 | For roles without a colon, two cache keys are equal exactly when text and role are both equal. |
| Embeddings.QueryPassageKeysDiffer | nodes/semantic-engine.js:216-218 | A query key never collides with a passage key. |
| Embeddings.EmptyCache | nodes/semantic-engine.js:236-239 | The cleared cache is well formed and empty. |
| Embeddings.PutValid | nodes/semantic-engine.js:230 | `map.set` keeps the cache well formed. The size grows by one exactly for a new key. |
| Embeddings.EvictValid | nodes/semantic-engine.js:225-228 | Deleting the first key keeps the cache well formed, removes exactly that key, and does nothing on an empty cache. |
| Embeddings.CacheSetFacts | nodes/semantic-engine.js:223-231 | After `cacheEmbedding(key, v)` the key maps to v and the cache stays within capacity. Every other key keeps its value. The only key that can disappear is the oldest, and it does exactly when the cache was full. |
| Embeddings.CacheSetKeeps | nodes/semantic-engine.js:223-231 | Below capacity nothing is evicted. |
| Embeddings.SemanticEngine.CacheEmbedding | nodes/semantic-engine.js:223-231 | Computes `CacheSet` on the cache fields and keeps the invariant. |
| Embeddings.SemanticEngine.ClearCache | nodes/semantic-engine.js:236-239 | Only the cache is emptied. |
| Embeddings.EmbedFacts | nodes/semantic-engine.js:95-128 | On a cache hit the cached vector is returned, nothing changes, and the model is not consulted. On a miss, the model's vector for the query-prefixed text is returned and cached under the query key. If the model fails, the failure is returned and the engine is unchanged. |
| Embeddings.SemanticEngine.GetEmbedding | nodes/semantic-engine.js:95-128 | Computes `Embed` on the engine's state and keeps the invariant. |
| Embeddings.Pending | nodes/semantic-engine.js:146-156 | The uncached indices are increasing positions whose role key is not cached. |
| Embeddings.PendingComplete | nodes/semantic-engine.js:146-156 | Every uncached position is among the uncached indices. |
| Embeddings.FillValid | nodes/semantic-engine.js:162-189 | The second loop keeps the cache well formed and within capacity. |
| Embeddings.FillSkipsFailures | nodes/semantic-engine.js:184-188 | A text the model fails on, not cached before, is not cached afterwards. |
| Embeddings.FillCaches | nodes/semantic-engine.js:162-183 | With room for every text, each text the model embeds is cached under its role key, and nothing cached before is lost. |
| Embeddings.BatchCacheFacts | nodes/semantic-engine.js:136-193 | The batch keeps the cache well formed and within capacity. A failed, uncached text stays uncached. With room for the whole batch, every embedded text is cached. |
| Embeddings.SemanticEngine.GetEmbeddingsBatch | nodes/semantic-engine.js:136-193 | One vector per text, in order. Slot i is the vector cached before the call, or else the model's vector for the role-prefixed text, or else a zero vector of the engine's dimension. The cache afterwards is `BatchCache`. |
| Embeddings.FillAsWrittenFails | nodes/semantic-engine.js:162-189 | As written, the second loop fails exactly when the model fails on some uncached text. |
| Embeddings.FillAsWrittenError | nodes/semantic-engine.js:184-187 | As written, that failure is always the `ReferenceError` on `originalIndex`. |
| Embeddings.AsWrittenBatchThrows | nodes/semantic-engine.js:184-187 | As written, one uncached text the model fails on makes the whole batch throw, where the intent is a zero vector in its slot. |
| Embeddings.SemanticEngine.CacheSize | nodes/semantic-engine.js:249 | The reported cache size never exceeds `maxCacheSize`. |
| Indexer.EmptyIndex | nodes/content-indexer.js:37 | The new page map is well formed and empty. |
| Indexer.Without | nodes/content-indexer.js:284 | Deleting a key from the Map's order keeps exactly the other keys. |
| Indexer.SetPageFacts | nodes/content-indexer.js:121-128 | Recording a page keeps the map well formed and stores the record. A page indexed before keeps its place in the listing with the new record. A new page is listed last. |
| Indexer.DeletePageFacts | nodes/content-indexer.js:284 | Deleting a page keeps the map well formed and unlists exactly that page. Every other record is kept. |
| Indexer.PageListFacts | nodes/content-indexer.js:324-333 | `getIndexedPages` lists one record per indexed page, in insertion order. `isPageIndexed` holds exactly for the pages whose record is listed. |
| Indexer.PageListCount | nodes/content-indexer.js:311 | `indexedPagesCount` equals the number of listed pages. |
| Indexer.Texts | nodes/content-indexer.js:95 | One text per chunk, the chunk's own. |
| Indexer.AddStored | nodes/content-indexer.js:104-115 | One round of the store loop keeps the stored state, whether the insert succeeds or is caught. It succeeds exactly when the embedding has the database's dimension and there is room. |
| Indexer.AddAllFacts | nodes/content-indexer.js:101-116 | The store loop keeps the database valid. It collects at most one id per chunk, consecutive and fresh, each holding a document of this page, and keeps every earlier document. Every chunk is stored when all embeddings have the right dimension and there is room. |
| Indexer.AcceptedIncrease | nodes/content-indexer.js:101-116 | The accepted chunk positions lie below n and strictly increase. |
| Indexer.AcceptedAt | nodes/content-indexer.js:104-115 | Chunk k is stored exactly when its embedding has the database's dimension and the database, holding one more vector per chunk stored before it, still has room. |
| Indexer.EntriesAt | nodes/content-indexer.js:105-112 | The m-th appended entry carries the m-th collected id and the embedding of the m-th accepted chunk. |
| Indexer.AddAllVectors | nodes/content-indexer.js:101-116 | The loop collects one id per accepted chunk and appends, after the old vectors, one entry per id holding that chunk's embedding. |
| Indexer.ChunksMatchAt | nodes/content-indexer.js:105-112 | Under `ChunksMatch`, the m-th id's document holds the m-th accepted chunk. |
| Indexer.AddAllChunks | nodes/content-indexer.js:101-116 | The document under each collected id holds the chunk of the corresponding accepted position. |
| Indexer.AddAllPlaced | nodes/content-indexer.js:101-116 | After the loop, the m-th collected id holds the m-th accepted chunk, and the m-th new vector is that id with that chunk's embedding. The old vectors come first, unchanged, and the accepted positions increase. |
| Indexer.ContentIndexer.StoreChunks | nodes/content-indexer.js:101-116 | The loop computes `AddAll` on the database. |
| Indexer.ContentIndexer.RecordPage | nodes/content-indexer.js:121-128 | `indexedPages.set` computes `SetPage`. |
| Indexer.IndexStepFacts | nodes/content-indexer.js:67-143 | A page without chunks changes nothing and reports 0. Otherwise every component stays valid with its settings, and the page is recorded with its chunk count and stored ids while other records are kept. The report counts all chunks and lists consecutive fresh ids, each holding a document of the page. The m-th id holds the m-th accepted chunk, and the m-th new vector is that id with that chunk's passage embedding. |
| Indexer.ContentIndexer.IndexContent | nodes/content-indexer.js:67-143 | Computes `IndexStep` on the components' states, with the chunks of `chunkText`, and keeps the invariant. |
| Indexer.BatchReports | nodes/content-indexer.js:155-177 | A batch reports once per page, in order, with the page's id and chunk count. |
| Indexer.BatchKeeps | nodes/content-indexer.js:155-177 | After a batch every component is still valid. Every page indexed before still is, and every document stored before is kept unchanged. |
| Indexer.BatchIndexes | nodes/content-indexer.js:155-177 | After a batch, every page of it that produced chunks is indexed. |
| Indexer.BatchHoldsAt | nodes/content-indexer.js:155-177 | In the batch's final store, the ids page i reports hold that page's accepted chunks, in chunk order. |
| Indexer.BatchStepFacts | nodes/content-indexer.js:148-182 | `indexContentBatch` satisfies all of the batch facts, with the chunk count of each page being that of `chunkText`. In the final store, each page's reported ids hold that page's accepted chunks in chunk order. |
| Indexer.ContentIndexer.IndexContentBatch | nodes/content-indexer.js:148-182 | Computes `BatchStep` and keeps the invariant. |
| Indexer.ChooseKeys | nodes/content-indexer.js:232-240 | The page map's keys come in first-seen order without repeats, and they are exactly the pages of the results seen. |
| Indexer.ChooseBest | nodes/content-indexer.js:232-240 | The hit kept for each page is one with the page's highest similarity, and the first such: every earlier hit of the page is strictly lower. |
| Indexer.DedupFacts | nodes/content-indexer.js:231-243 | The deduplicated results are sorted by non-increasing similarity, with one hit per page and no more hits than the input. Each is the first highest-scoring hit of its page, and every page of the input is represented. |
| Indexer.ContentIndexer.DeduplicateByPage | nodes/content-indexer.js:231-243 | The loop over the results computes `Dedup`. |
| Indexer.MatchCountFacts | nodes/content-indexer.js:261 | The match count is 0 exactly when no query word occurs in the window, and is the number of words exactly when all occur. |
| Indexer.WindowCount | nodes/content-indexer.js:259 | The positions 0, 50, ... below a bound are a positive count when the bound is positive, and they reach the bound. |
| Indexer.ScanFacts | nodes/content-indexer.js:256-267 | After the scan, the best position holds the highest match count over all scanned windows and no earlier window reaches it. It stays 0 while nothing matches. |
| Indexer.SnippetStart | nodes/content-indexer.js:256-267 | The snippet start leaves a full window of `maxLength` inside the text and before its end. |
| Indexer.SnippetFacts | nodes/content-indexer.js:248-275 | A text of at most `maxLength` characters is its own snippet. A longer one yields the window at a multiple of 50 with the most query words (the first such, and 0 when none match). It always ends with `...` and starts with `...` exactly when it does not begin the text. |
| Indexer.ContentIndexer.GenerateSnippet | nodes/content-indexer.js:248-275 | The loop computes `Snippet`. |
| Indexer.FormatFacts | nodes/content-indexer.js:212-221 | Each formatted result is ranked by position. It carries its hit's page, URL, title, similarity, chunk source and chunk text, with the 200-character snippet of the chunk. |
| Indexer.TopResultsFacts | nodes/content-indexer.js:203-221 | At most `topK` results, ranked 1, 2, ..., one per page, by non-increasing similarity. Each carries the best similarity of its page among the hits. There are fewer than `topK` only when every page of the hits is listed. |
| Indexer.SearchOutcomeFacts | nodes/content-indexer.js:187-226 | A search fails exactly when the query cannot be embedded or its vector has the wrong dimension. Otherwise it returns the top results of the database's `3 * topK` best hits. Every result names a stored document of its page. |
| Indexer.ContentIndexer.SearchContent | nodes/content-indexer.js:187-226 | Embeds the query through the engine (its only state change) and returns `SearchOutcome` on the database. |
| Indexer.ContentIndexer.RemovePageIndex | nodes/content-indexer.js:280-287 | The database computes `RemovePage` and the page map `DeletePage`. The invariant is kept. |
| Indexer.ContentIndexer.ClearAll | nodes/content-indexer.js:292-300 | Clears the database, the page map and the embedding cache, keeping the invariant. |
| Indexer.ContentIndexer.GetStats | nodes/content-indexer.js:305-319 | The page count equals the number of listed pages. The document and vector counts agree and are within capacity, and the cache size is within its bound. |
| Indexer.ContentIndexer.constructor | nodes/content-indexer.js:11-40 | Builds the chunker, engine and database with the indexer's own defaults for 0 options (80, 1, 20, 384, 1000, 10000), the given model and an empty page map. |

## Left out

- `initialize`, `dispose`, `isInitialized` and the `await` of asynchronous calls are not modelled. The components are ready when constructed and every call completes in order. Concurrency is outside the model.
- Console output is left out, as are the clock readings `timestamp`, `indexedAt` and `timeElapsed`.
- The embedding model, its download and load paths (`cacheDir`, `localModelPath`, `useQuantized`) and the pipeline options (`pooling`, `normalize`) are foreign code. The model is the parameter `Model`, a function from text to a vector or a failure. The `Float32Array` conversion is left out: vectors are sequences of reals.
- The HNSW options `M`, `efConstruction` and `efSearch` are accepted by the source and never used, so they are not modelled.
- `capacityUsage` and the other formatted strings of the `getStats` methods are left out (floating-point formatting). `modelName` and `dimension` are carried through unchanged.
- Indexer.IndexStep: reports a page without chunks with an empty id list, where the source's object has no `vectorIds` field.
- Indexer.BatchStep: does not model the `success` flag or the failure record of `indexContentBatch`. With the corrected batch embedding, `indexContent` can only throw from `initialize`, which is not modelled.
- Indexer.AddAllFacts: states validity, the fresh consecutive ids and the case where every chunk is stored. Which chunk and embedding sit under each id is stated separately by Indexer.AddAllPlaced, and which inserts are skipped by Indexer.AcceptedAt, so that each proof stays small.
- Indexer.ContentIndexer.SearchContent: takes `topK` from the caller. The default of 10 and the unused `options` argument are not modelled. The snippet length is the default 200, as the source's call uses.
- VectorStore.Similarity: is the signed square of the cosine, `dot * abs(dot) / (normA * normB)`, because Dafny's reals have no square root. It has the cosine's sign, symmetry, self-score 1 and zero-vector rule, and it orders candidates the same way. The `similarity` and `distance` values themselves are not the source's numbers.
- Common.ToLower: lower-cases ASCII letters only; the full Unicode case mapping of `toLowerCase` is not modelled.
- TextChunker.BasicSentences: models the six-step `replace` chain of `splitIntoSentences` as one scan that marks where a line break goes. The step after a CJK terminal followed by a quote never fires, because the first step already put a line break after every CJK terminal. The scan may differ from the chain only in whitespace-only pieces, which the trim-and-filter step removes.
- Strings are sequences of Unicode scalar values, not UTF-16 code units. Every length the source checks or slices by is counted in code units: the title's `> 5`, the sentence's `> 15`, the content's `> 500`, `minChunkLength`, the 200-character snippet, its 50-step positions and the `substring` offsets. The model counts these lengths in scalar values. So it agrees with the source on text within the Basic Multilingual Plane, and it differs on text with characters outside it (emoji, CJK Extension B). `\s` and `trim` follow the ECMAScript whitespace and line-terminator sets.
- The numeric options and `topK` are natural numbers. Negative or fractional values are outside the model. The source accepts them: a negative `topK`, for example, makes `slice(0, Math.min(topK, n))` drop results from the end.

## Findings

| source | as written | input that shows it | evidently intended | confidence | as-written member | corrected member |
|---|---|---|---|---|---|---|
| nodes/text-chunker.js:106 | The overlapping-window loop of the aggressive pass advances by `maxWordsPerChunk - 5`, which is 0 or negative when `maxWordsPerChunk <= 5`. | `new TextChunker({maxWordsPerChunk: 5})` on a text longer than 500 characters whose first pass finds fewer than 3 sentences and whose aggressive pass finds a piece of more than 5 words: the cursor never advances, so the loop never ends. | Advance by at least one word, as the grouping cursor does with `Math.max(1, ...)` at line 159. | not executed | TextChunker.AsWrittenCursorStalls | TextChunker.TextChunker.AppendOverlappingWindows |
| nodes/semantic-engine.js:185-187 | The `catch` block reads `originalIndex`, a `const` declared inside the `try` block, so it is not in scope there. | `getEmbeddingsBatch(["a", "b"])` with an empty cache and a model that throws on `passage: a`: the `catch` throws a `ReferenceError`, the batch rejects, and `indexContent` fails for the whole page. | Store a zero vector of the engine's dimension in the failed text's slot and carry on. | not executed | Embeddings.AsWrittenBatchThrows | Embeddings.SemanticEngine.GetEmbeddingsBatch |
