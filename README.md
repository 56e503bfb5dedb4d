# Wikipedia corpus collection, modelled in Dafny

This project models the core of a Wikipedia-harvesting pipeline. It has three parts.

- **The n-gram corpus** (`collect_corpus.py`, module `NgramCorpus`).
  - `Corpus.collect_data` walks the page batches of the article index and cleans every page into a token sequence (`parse_articles`: punctuation removed, lowercased, split on whitespace).
  - It adds each sequence's everygram count to `size` and chains the everygrams.
  - It checks the `max_size` bound before every batch and before every sequence.
  - At the end it truncates the chain to `max_size` and overwrites `size`.
  - `save_tsv` renders every n-gram as one `[N\t]CONTENT\n` record.
- **The paragraph corpus** (`corpus.py`, modules `ParagraphCorpus` and `ParagraphFacts`).
  - `__iterate_wikipages_by_id__` is a batch worker. For each page it fetches the HTML extract, turns every no-break space into a space, drops every newline, and collects the `<p>` texts. A page whose fetch or parse fails is skipped.
  - `collect_data` runs rounds. Each round takes up to `2 * n_proc` batches, maps the worker over them in submission order, adds the result lengths to `size` and chains the results.
  - The loop stops after the first round that leaves `size >= max_size`. Truncation then follows as above.
- **The article-index client** (`utils.py`, module `ArticleIndex`).
  - `get_articles_batch` rejects a batch size outside 1..500 before any request.
  - Otherwise it sends one `allpages` request and returns the page list with the continuation cursor.
  - `articles_batch_generator` calls it `batches_count` times, passing each reply's cursor to the next request.

Modules `Common` (chaining, decimal numerals, first-tab split, the permutation contract), `Cleanup` (per-page text cleanup) and `Everygrams` (the contract of `nltk.everygrams`) hold shared definitions.

The library code and remote services the core calls are passed in as function-typed parameters.

- `stripHeaders`: the header-deleting regular expression. It is opaque.
- `everygrams`: any function whose output has the same multiset as the reference window enumeration `Everygrams.Windows`. Its order is left free. The property is required only for `min_n >= 1` and `max_n >= -1` (`Everygrams.InRange`).
- `shuffle`: any function that keeps the multiset of its list. It gets the batch index, so each batch has its own draw.
- `Site.extract`: the page query. It returns `None` when the query or a key lookup raises.
- `Site.paragraphs`: the BeautifulSoup `<p>` extraction. It returns `None` when parsing raises.
- The server behind `requests.Session`: it returns `None` when the transfer or JSON decoding raises.

The article index that `collect_data` paginates through is an input sequence of batches. A generator is a finite sequence, and `itertools.chain` is `Common.Flatten`. The process pool is an in-order sequential map.

Failures that escape `collect_data` are modelled, not assumed away.

- In `collect_corpus.py` nothing inside the loop is guarded. The index is a sequence of steps (`NgramCorpus.Step`): a fetched batch with its raw page texts, a page query that raises (`QueryFails`, which also covers an empty `cirrusdoc` list), or a pagination request that raises (`ListingFails`). `CollectData` returns `aborted`.
- In `corpus.py` only `StopIteration` is caught while a round is filled. The flag `indexFails` says that the request after the last batch raises something else. Since the batches before the failure can be any list, this covers a failure at any position. `CollectData` returns `Aborted`.
- In both, an aborted collection keeps the counter increments of the batches or rounds already done, and the generator is not replaced. So `len()` then counts units that `get_data()` does not hold.
- `mp.Pool` refuses fewer than one process. `ParagraphCorpus.Corpus.CollectData` returns `PoolError` for `n_proc < 1` and changes nothing. The default `os.cpu_count() - 1` is 0 on a one-core machine.

Behaviour of the code worth noting:

- In `corpus.py`, `max_size <= 0` does not collect until pagination is exhausted: the loop stops after the first round, because `size >= max_size` already holds (`ParagraphFacts.UnboundedOneRound`).
- In both corpora, with `max_size > 0`, `size` is set to `max_size` even when fewer units were produced. The generator then holds fewer than `size` units (`NgramCorpus.TruncationCounts`, `ParagraphCorpus.Corpus.CollectData`).
- `min_n > max_n` raises no error when `0 <= max_n < min_n`. `nltk.everygrams` then yields nothing and the collection goes on (`Everygrams.Windows` is empty when `lo > hi`).
- In `corpus.py`, a positive `max_size` that the whole index cannot reach makes `collect_data` loop forever over empty rounds. The model returns the outcome `Spins` with the state at which the loop spins (`ParagraphFacts.SpinsIff`).
- Random selection permutes within one batch only. The model lets each batch's permutation be an arbitrary reordering.

## Model

| member | source | states |
|---|---|---|
| Cleanup.RemovePunctuationChars | collect_corpus.py:23 | `RemovePunctuation`, the punctuation `re.sub`, keeps exactly the characters that are not one of the 16 deleted ones |
| Cleanup.LowerChars | collect_corpus.py:26 | `Lower`, the ASCII `str.lower`, keeps length and position, lowers each character, leaves no ASCII capital and adds no punctuation |
| Cleanup.SplitWordsSpec | collect_corpus.py:33 | each token of `Split` (`str.split()`) is non-empty and made of non-whitespace input characters; read together, the tokens are the input without its whitespace |
| Cleanup.SplitWordsRuns | collect_corpus.py:33 | token k of `Split` is a maximal run of non-whitespace in the input, found at position `RunStarts[k]` with whitespace or an end of the input on both sides, and these positions strictly increase, so the tokens are whole words in the order they occur |
| Cleanup.CleanPageTokens | collect_corpus.py:19-34 | `CleanPage` (header pass, punctuation, lower case, split) gives tokens of which every one of a cleaned page is non-empty, has no whitespace and none of the deleted punctuation, and is lower case |
| Cleanup.SplitJoin | collect_corpus.py:91 | `Join` (`' '.join`) then `Split` is the identity: joining clean tokens with single spaces and splitting again gives the tokens back |
| Everygrams.WindowsLength | collect_corpus.py:65 | the reference enumeration has, for each length in range, one window per start position |
| Everygrams.WindowsMembership | collect_corpus.py:65-66 | a window is enumerated iff it occurs contiguously and its length is at least 1 and within [min_n, max_n] |
| Everygrams.WindowCountClosedForm | collect_corpus.py:65 | for 1 <= min_n <= max_n <= len + 1, the count is the sum of (len - n + 1) over n in [min_n, max_n] |
| Everygrams.EverygramsCount | collect_corpus.py:65 | any everygrams function adds exactly that window count to `size` (-1 as max_n means the sequence length) |
| Everygrams.EverygramsMembership | collect_corpus.py:66 | any everygrams function yields exactly the contiguous windows with length in range |
| NgramCorpus.ParseArticles | collect_corpus.py:14-36 | one token list per page, in query order, each the cleaned page |
| NgramCorpus.AddSequences | collect_corpus.py:60-66 | the inner loop checks the bound before each sequence and adds that sequence's n-gram count and n-grams, as the specification `AddSeqs` says |
| NgramCorpus.AddBatch | collect_corpus.py:55-68 | one batch: its pages are cleaned, permuted when random selection is on, and their n-grams counted and chained as the specification `AddSeqs` says |
| NgramCorpus.AddSeqsAppend | collect_corpus.py:61-66 | feeding two lists of sequences one after the other is feeding their concatenation |
| NgramCorpus.AllFetchedTraverse | collect_corpus.py:51-69 | when no step raises, the outer loop `Traverse` ends normally with the state `Gathered` describes |
| NgramCorpus.QueryFailureAborts | collect_corpus.py:51-56 | a page query that raises after some batches escapes unless the bound was already reached before it; the counter keeps every earlier batch |
| NgramCorpus.ListingFailureAborts | collect_corpus.py:51-53 | a pagination request that raises after some batches escapes unless the loop had already broken off before the last of them; the counter keeps every earlier batch |
| NgramCorpus.AddBatchesIsFlat | collect_corpus.py:51-66 | the bound check before each batch changes nothing beyond the check before each sequence: the batches behave as one flat list of sequences |
| NgramCorpus.AddSeqsPrefix | collect_corpus.py:61-66 | the sequences are admitted in order while the counter is below the bound; the admitted ones are exactly the counted and chained ones; the first one left out finds the bound reached |
| NgramCorpus.GatheredPrefix | collect_corpus.py:50-69 | before truncation the counter grew from its old value by the n-gram count of the admitted prefix and the chain holds those n-grams; with max_size <= 0 every sequence is admitted |
| NgramCorpus.BoundedOvershoot | collect_corpus.py:52-66 | with max_size > 0, the counter before truncation exceeds max_size by less than the n-gram count of the last sequence added, and it reaches max_size unless every sequence was added |
| NgramCorpus.TruncationCounts | collect_corpus.py:69-73 | the chain is as long as the counter's growth; with max_size > 0, `Truncate` makes the generator the first min(max_size, growth) n-grams and size max_size |
| NgramCorpus.AlreadyFull | collect_corpus.py:51-53 | the counter is not restarted: once it has reached a positive bound, a new collection adds nothing and leaves an empty generator |
| NgramCorpus.ChainLength | collect_corpus.py:65-66 | the chained n-grams are as many as the summed window counts of the sequences |
| NgramCorpus.WindowTotalPermutation | collect_corpus.py:57-58 | permuting a batch's sequences does not change its window total |
| NgramCorpus.WindowTotalFlatten | collect_corpus.py:51-68 | with permutation on or off, the window total of all sequences is the per-page sum over the cleaned pages |
| NgramCorpus.UnboundedCollectsAll | collect_corpus.py:51-69 | with max_size <= 0, size grows by exactly the number of windows of every page, and the generator is the n-grams batch by batch, sequence by sequence |
| NgramCorpus.ArrangementPermutes | collect_corpus.py:56-58 | with random selection a batch's sequences are a permutation of its cleaned pages; without it they are the cleaned pages in order; batches keep pagination order |
| NgramCorpus.ChainMembership | collect_corpus.py:66-68 | every chained n-gram comes from one of the sequences |
| NgramCorpus.AllSeqsAreCleanPages | collect_corpus.py:55-58 | every sequence worked on is the cleaned text of a page of some batch |
| NgramCorpus.CollectedUnitsFromSeqs | collect_corpus.py:66-72 | every unit of the final generator is an n-gram of one admitted sequence |
| NgramCorpus.CollectedUnitsAreCleanWindows | collect_corpus.py:55-72 | every unit of the final generator is a contiguous window, of allowed length, of one cleaned page, made of clean tokens |
| NgramCorpus.NgramLineReadBack | collect_corpus.py:87-93 | a record with `write_n` and `ngram_as_string` splits at its first tab into the decimal of the n-gram's length and the joined tokens; these read back as the length and the n-gram; the record ends in a newline |
| NgramCorpus.Corpus.constructor | collect_corpus.py:40-43 | a fresh corpus has size 0 and an empty generator |
| NgramCorpus.Corpus.Len | collect_corpus.py:45-46 | `__len__` is the size counter, never negative |
| NgramCorpus.Corpus.GetData | collect_corpus.py:79-80 | returns the generator |
| NgramCorpus.Corpus.ResetData | collect_corpus.py:75-77 | size 0 and an empty generator |
| NgramCorpus.Corpus.CollectData | collect_corpus.py:48-73 | the loop runs as the specification `Traverse` says, counting on from the old size; when an exception escapes, size keeps the increments made and the generator is the old one; otherwise the state is `Truncate` of the loop's end |
| NgramCorpus.Corpus.SaveTsv | collect_corpus.py:86-93 | one record per unit, in generator order, each `NgramLine` of the unit |
| Common.DecimalRoundTrip | collect_corpus.py:90 | the decimal numeral of a length reads back as that length; it is non-empty, all digits, and has no leading zero |
| Common.SplitAtFirstTabOfPrefixed | collect_corpus.py:90 | a tab-free prefix, a tab, then anything: the first-tab split recovers both parts |
| Common.FlattenAppend | collect_corpus.py:68-69 | chaining the chains of two lists of segments is chaining the two chains |
| Common.FlattenMembership | collect_corpus.py:69 | an element is in the chain iff it is in one of the segments |
| Common.FlattenLength | corpus.py:66-68 | the chain is as long as the summed lengths of the segments |
| ParagraphCorpus.Run | corpus.py:53-71 | the round loop ends within the index and never lowers the counter; if it ends, size >= max_size; if it spins, the index is exhausted, did not raise, and size < max_size; if it aborts, the index raises and the failing round reads past its last batch |
| ParagraphCorpus.FillRound | corpus.py:54-61 | a round takes the next min(2 * n_proc, remaining) batches, in order, and fewer than 2 * n_proc only when the index is exhausted |
| ParagraphCorpus.Corpus.constructor | corpus.py:17-23 | a fresh corpus has size 0, an empty generator and the given language, bound and random-selection flag |
| ParagraphCorpus.Corpus.Len | corpus.py:25-26 | `__len__` is the size counter, never negative |
| ParagraphCorpus.Corpus.GetData | corpus.py:83-84 | returns the generator |
| ParagraphCorpus.Corpus.ResetData | corpus.py:79-81 | size 0 and an empty generator |
| ParagraphCorpus.Corpus.IterateWikipagesById | corpus.py:28-47 | the worker returns `WorkerResult`, built from `PageParagraphs` and `BatchParagraphs` over the `CleanExtract` of each extract: the paragraphs of its pages in page order, failed pages skipped, permuted as a whole when random selection is on |
| ParagraphCorpus.Corpus.Dispatch | corpus.py:63-65 | the map over a round keeps submission order: result i is the worker's result for batch i |
| ParagraphCorpus.Corpus.AddRound | corpus.py:66-68 | size grows by the round's total paragraph count and the results are appended in order |
| ParagraphCorpus.Corpus.Round | corpus.py:54-68 | one loop pass: take the round's batches, run the workers, and extend the counter and the chain by their results |
| ParagraphCorpus.Corpus.LoopBody | corpus.py:54-71 | one pass of the `while True` body: either the loop goes on from a later cursor with the same outcome as the specification `Run`, or it stops with exactly `Run`'s end state; the chain holds the results of every batch before the cursor |
| ParagraphCorpus.Corpus.RunRounds | corpus.py:53-71 | the round loop ends with the counter, outcome and chained results that the specification `Run` gives from the old counter |
| ParagraphCorpus.Corpus.CollectData | corpus.py:49-77 | n_proc < 1 fails with nothing changed; otherwise the outcome, size and generator are those of the specification `Run` from the old size, with the generator truncated to max_size and size set to max_size when max_size > 0, and with the generator left alone when the loop spins or an exception escapes |
| ParagraphCorpus.Corpus.SaveTsv | corpus.py:86-97 | one record per paragraph, in generator order, each `ParagraphLine` of the paragraph |
| ParagraphFacts.ReplaceNbspSpec | corpus.py:37 | in `ReplaceNbsp`, each no-break space becomes a space; every other character, the length and the newline count are kept |
| ParagraphFacts.DropNewlinesSpec | corpus.py:37 | `DropNewlines` keeps exactly the characters that are not newlines, and the text shrinks by its number of newlines |
| ParagraphFacts.CleanExtractSpec | corpus.py:37 | `CleanExtract`, the cleaned extract, has no newline and no no-break space, holds exactly the expected characters, is shorter by the newline count, and cleaning is idempotent |
| ParagraphFacts.BatchParagraphsMembership | corpus.py:29-43 | a paragraph is in `BatchParagraphs`, the worker's list, iff one of the batch's pages was fetched and parsed and has it among its `<p>` texts |
| ParagraphFacts.BatchParagraphsAppend | corpus.py:30-40 | paragraphs are appended page after page: two runs of pages give the first run's paragraphs, then the second's |
| ParagraphFacts.WorkerMembership | corpus.py:44-47 | whatever the permutation, `WorkerResult` is a permutation of its pages' paragraphs (equal multisets), so it holds as many paragraphs as its pages have, and exactly those |
| ParagraphFacts.CollectedProvenance | corpus.py:63-73 | the chain of the first c results holds exactly the paragraphs of the pages of the first c batches |
| ParagraphFacts.RangeTotalSplit | corpus.py:66-67 | the paragraph count over a span of batches is the sum of the counts of its two halves |
| ParagraphFacts.RunFacts | corpus.py:53-71 | the loop ends at a round boundary, having counted every paragraph before it, at the first boundary where size >= max_size; an aborted run stops at the start of the failing round, with size still short of max_size if earlier rounds ran |
| ParagraphFacts.SpinsIff | corpus.py:53-71 | the loop spins forever iff the index ends normally (it does not raise) and holds too few paragraphs to bring size to max_size |
| ParagraphFacts.AbortsIff | corpus.py:53-71 | over an index that raises instead of ending, collect_data raises exactly when the loop gets to the round that reads past the last batch, and it stops at that round's start |
| ParagraphFacts.UnboundedOneRound | corpus.py:70-71 | with max_size <= 0 and a non-negative counter, exactly one round is collected |
| ParagraphFacts.CollectedChainLength | corpus.py:66-73 | the chain is as long as the counter's growth |
| ParagraphFacts.BoundedCollectionFills | corpus.py:70-77 | from size 0, a bounded collection that ends yields exactly max_size paragraphs |
| ParagraphFacts.ParagraphLineReadBack | corpus.py:92-97 | with `write_len`, a record splits at its first tab into the decimal of the paragraph's length and the paragraph with its newline, even when the paragraph holds tabs |
| ParagraphFacts.ParagraphLinePlain | corpus.py:92-97 | without `write_len`, a record is the paragraph and a newline |
| ArticleIndex.BatchRequest | utils.py:8-16 | the request goes to the language's api.php with action=query, format=json, list=allpages, apfrom = cursor and aplimit = batch size |
| ArticleIndex.GetArticlesBatch | utils.py:4-23 | a batch size outside 1..500 fails with nothing sent; otherwise one request is sent, and the result is the reply's allpages list with its apcontinue cursor; a failed transfer gives `TransportError`, a missing page list `MissingPages` (read first), a missing cursor `MissingContinue` |
| ArticleIndex.BatchSizeLimits | utils.py:5-6 | 1 and 500 are accepted; 0 and 501 are rejected before any request |
| ArticleIndex.ArticlesBatchGenerator | utils.py:26-31 | the loop's batches, requests and error are those of the specification `BatchWalk` from the empty cursor |
| ArticleIndex.WalkCount | utils.py:29-31 | without an error, exactly max(batches_count, 0) batches; with a valid size, one request per call; with an invalid size, nothing sent and a failure on the first call |
| ArticleIndex.WalkRequests | utils.py:28-30 | every request is an allpages request with the fixed batch size, and the first starts from the walk's cursor |
| ArticleIndex.WalkThreading | utils.py:28-31 | batch i is the page list of the reply to request i, and request i + 1 starts from that reply's continuation cursor |
| ArticleIndex.FirstRequestFromStart | utils.py:28-30 | the generator's first request starts from the empty cursor |

## Left out

- The remote Wikipedia API (`pywikiapi.wikipedia`, `site.query`, `site.query_pages`, `requests.Session.get`, JSON decoding) is replaced by input sequences and function parameters. Latency, retries and the site's own pagination are not modelled.
- BeautifulSoup's `<p>` extraction is an opaque function that may fail. A failure partway through a page is modelled as "no paragraphs from that page". If `find_all`/`get_text` raised after some appends, the texts already appended would stay in Python.
- The header-removal regular expression is an opaque `string -> string` pre-pass. It is not given regex semantics.
- `str.lower` is modelled on ASCII letters only. Other Unicode case mappings are not modelled.
- `nltk.everygrams` is specified only by its multiset of windows, and only for `min_n >= 1` and `max_n >= -1` (`Everygrams.InRange`). With `min_n < 1`, nltk can also emit empty or odd tuples, which the reference enumeration does not have.
- `np.random.permutation` is any multiset-preserving function indexed by the batch. Its distribution is not modelled. Converting ragged token lists into a numpy array, which newer numpy refuses, is not modelled.
- `str(tuple)` output when `ngram_as_string` is false is a parameter `repr`.
- File opening, encodings, the timestamp-derived default path and the act of writing are left out. `SaveTsv` returns the records as a sequence.
- The argparse `__main__` block of `collect_corpus.py` is left out.
- `multiprocessing.Pool` is modelled as a sequential map in submission order. Worker processes, pickling of the corpus object and the pool never being closed are not modelled.
- Generators are finite sequences. Laziness and single-pass exhaustion are not modelled: reading `GetData` or calling `SaveTsv` does not empty the generator.
- Default arguments are not modelled; every argument is always passed. These are `n_proc=os.cpu_count() - 1` (corpus.py:49), `apfrom=""` and `batch_size=10` (utils.py:4, utils.py:26), `max_size=-1` and `random_choise=False` (collect_corpus.py:48, corpus.py:17), `write_n=True` and `ngram_as_string=False` (collect_corpus.py:82), and `write_len=True` (corpus.py:86).
- `nltk.everygrams` with `max_n < -1` raises in nltk's own slicing. `Everygrams.Windows` yields nothing there instead, and `IsEverygrams` says nothing about such arguments. nltk's code is not part of this model.
- NgramCorpus.ChainLength: stated only for `min_n >= 1` and `max_n >= -1` (`Everygrams.InRange`). Outside that range nltk emits empty tuples or raises, and the model promises nothing there.
- NgramCorpus.UnboundedCollectsAll: stated only for `min_n >= 1` and `max_n >= -1` (`Everygrams.InRange`). Outside that range nltk emits empty tuples or raises, and the model promises nothing there.
- NgramCorpus.CollectedUnitsAreCleanWindows: stated only for `min_n >= 1` and `max_n >= -1` (`Everygrams.InRange`). Outside that range nltk emits empty tuples or raises, and the model promises nothing there.
- Everygrams.EverygramsCount: stated only for `min_n >= 1` and `max_n >= -1` (`Everygrams.InRange`). Outside that range nltk emits empty tuples or raises, and the model promises nothing there.
- Everygrams.EverygramsMembership: stated only for `min_n >= 1` and `max_n >= -1` (`Everygrams.InRange`). Outside that range nltk emits empty tuples or raises, and the model promises nothing there.
- The page query at corpus.py:31-33 sits outside the `try`. The model treats every failure for a page as caught, that is, as happening when the reply is read.
- ParagraphCorpus.Corpus.CollectData: non-termination is not modelled as divergence. The method returns `Spins` with the counter at the value where the Python loop spins forever.
- ArticleIndex.ArticlesBatchGenerator: the generator is consumed to its end or to its first error. A consumer that stops early is not modelled, and the lazy suspension between batches is not either.
