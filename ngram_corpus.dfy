/** The n-gram corpus of collect_corpus.py: a Corpus object whose collect_data
    walks the page batches of the article index, cleans every page into a token
    sequence, counts and chains the everygrams of each sequence, stops early once
    a size bound is reached, and finally truncates the chain; save_tsv renders
    the chain as one record per n-gram.

    The remote index is an input: batch by batch in pagination order, either the
    raw texts of the pages of that batch in query order, or the failure that
    escapes collect_data at that step. */
module NgramCorpus {
  import opened Common
  import opened Cleanup
  import opened Everygrams

  type Token = string
  type Ngram = seq<Token>

  /** The library code collect_data calls, as parameters: the header-deleting regular
      expression, nltk.everygrams and np.random.permutation. */
  datatype Helpers = Helpers(
    stripHeaders: string -> string,
    everygrams: (seq<Token>, int, int) -> seq<Ngram>,
    shuffle: (nat, seq<seq<Token>>) -> seq<seq<Token>>)

  ghost predicate ValidHelpers(h: Helpers)
  {
    IsEverygrams(h.everygrams) && IsShuffler(h.shuffle)
  }

  /** The arguments of collect_data. */
  datatype Settings = Settings(minN: int, maxN: int, maxSize: int, randomChoice: bool)

  // ---------------------------------------------------------------------------
  // Specification of collect_data
  // ---------------------------------------------------------------------------

  /** The token sequences of one batch as parse_articles returns them. */
  function ParsedBatch(raws: seq<string>, stripHeaders: string -> string): seq<seq<Token>>
  {
    seq(|raws|, i requires 0 <= i < |raws| => CleanPage(raws[i], stripHeaders))
  }

  /** Batch k's sequences, permuted when random selection is on. */
  function Arrange(k: nat, raws: seq<string>, cfg: Settings, h: Helpers): seq<seq<Token>>
  {
    var seqs := ParsedBatch(raws, h.stripHeaders);
    if cfg.randomChoice then h.shuffle(k, seqs) else seqs
  }

  function Arranged(pages: seq<seq<string>>, cfg: Settings, h: Helpers): seq<seq<seq<Token>>>
  {
    seq(|pages|, k requires 0 <= k < |pages| => Arrange(k, pages[k], cfg, h))
  }

  /** All sequences of all batches, batch after batch. */
  function AllSeqs(pages: seq<seq<string>>, cfg: Settings, h: Helpers): seq<seq<Token>>
  {
    Flatten(Arranged(pages, cfg, h))
  }

  /** The `self.size` counter and the chained n-grams collected so far. */
  datatype Tally = Tally(size: int, units: seq<Ngram>)

  /** The early-exit test `max_size > 0 and self.size >= max_size`. */
  predicate Full(size: int, maxSize: int)
  {
    maxSize > 0 && size >= maxSize
  }

  function Grams(s: seq<Token>, cfg: Settings, h: Helpers): seq<Ngram>
  {
    h.everygrams(s, cfg.minN, cfg.maxN)
  }

  /** The everygrams of the sequences, chained in order. */
  function Chain(ss: seq<seq<Token>>, cfg: Settings, h: Helpers): seq<Ngram>
    decreases |ss|
  {
    if ss == [] then [] else Grams(ss[0], cfg, h) + Chain(ss[1..], cfg, h)
  }

  /** The inner loop of collect_data over the sequences of one batch. */
  function AddSeqs(t: Tally, ss: seq<seq<Token>>, cfg: Settings, h: Helpers): Tally
    decreases |ss|
  {
    if ss == [] || Full(t.size, cfg.maxSize) then t
    else
      var g := Grams(ss[0], cfg, h);
      AddSeqs(Tally(t.size + |g|, t.units + g), ss[1..], cfg, h)
  }

  /** The outer loop of collect_data over the batches. */
  function AddBatches(t: Tally, batches: seq<seq<seq<Token>>>, cfg: Settings, h: Helpers): Tally
    decreases |batches|
  {
    if batches == [] || Full(t.size, cfg.maxSize) then t
    else AddBatches(AddSeqs(t, batches[0], cfg, h), batches[1..], cfg, h)
  }

  /** The state before the final islice: counting started from the current size, with an
      empty chain. */
  function Gathered(size0: int, pages: seq<seq<string>>, cfg: Settings, h: Helpers): Tally
  {
    AddBatches(Tally(size0, []), Arranged(pages, cfg, h), cfg, h)
  }

  /** The final islice and size overwrite when a positive bound is set. */
  function Truncate(t: Tally, maxSize: int): Tally
  {
    if maxSize > 0 then Tally(maxSize, t.units[..Min(maxSize, |t.units|)]) else t
  }

  /** The size and generator collect_data leaves behind. */
  function Collected(size0: int, pages: seq<seq<string>>, cfg: Settings, h: Helpers): Tally
  {
    Truncate(Gathered(size0, pages, cfg, h), cfg.maxSize)
  }

  /** One step of the pagination loop: a batch whose page query succeeds, with the raw
      texts of its pages in query order; a batch whose page query, or one of whose
      cirrusdoc lookups, raises; or a pagination request that raises. */
  datatype Step =
    | Fetched(raws: seq<string>)
    | QueryFails
    | ListingFails

  /** A source whose every step is a fetched batch. */
  function AllFetched(pages: seq<seq<string>>): (steps: seq<Step>)
    ensures |steps| == |pages| && forall j :: 0 <= j < |pages| ==> steps[j] == Fetched(pages[j])
  {
    seq(|pages|, j requires 0 <= j < |pages| => Fetched(pages[j]))
  }

  /** Where the outer loop leaves off: the counter and chain, and whether an exception
      escaped it. */
  datatype Ending = Ending(t: Tally, aborted: bool)

  /** The outer loop from step b on. The pagination request comes before the bound check,
      the page query after it. */
  function Traverse(t: Tally, b: nat, steps: seq<Step>, cfg: Settings, h: Helpers): Ending
    requires b <= |steps|
    decreases |steps| - b
  {
    if b == |steps| then Ending(t, false)
    else if steps[b].ListingFails? then Ending(t, true)
    else if Full(t.size, cfg.maxSize) then Ending(t, false)
    else if steps[b].QueryFails? then Ending(t, true)
    else Traverse(AddSeqs(t, Arrange(b, steps[b].raws, cfg, h), cfg, h), b + 1, steps, cfg, h)
  }

  /** How many leading sequences are admitted before the bound is reached. */
  function Admitted(size: int, ss: seq<seq<Token>>, cfg: Settings, h: Helpers): (k: nat)
    ensures k <= |ss|
    decreases |ss|
  {
    if ss == [] || Full(size, cfg.maxSize) then 0
    else 1 + Admitted(size + |Grams(ss[0], cfg, h)|, ss[1..], cfg, h)
  }

  /** The window count of one sequence, summed over sequences. */
  function WindowTotal(ss: seq<seq<Token>>, cfg: Settings): nat
    decreases |ss|
  {
    if ss == [] then 0
    else WindowCount(|ss[0]|, cfg.minN, EffectiveMax(|ss[0]|, cfg.maxN)) + WindowTotal(ss[1..], cfg)
  }

  /** The window count of every page of every batch, in pagination and query order. */
  function PagesWindowTotal(pages: seq<seq<string>>, cfg: Settings, h: Helpers): nat
    decreases |pages|
  {
    if pages == [] then 0
    else PagesWindowTotal(pages[..|pages| - 1], cfg, h)
         + WindowTotal(ParsedBatch(pages[|pages| - 1], h.stripHeaders), cfg)
  }

  /** w is one of the windows everygrams(s, min_n, max_n) yields. */
  ghost predicate IsWindowOf(w: Ngram, s: seq<Token>, cfg: Settings)
  {
    1 <= |w| && cfg.minN <= |w| <= EffectiveMax(|s|, cfg.maxN) && exists p :: IsSliceAt(w, s, p)
  }

  // ---------------------------------------------------------------------------
  // Records written by save_tsv
  // ---------------------------------------------------------------------------

  /** One record: optionally the n-gram length and a tab, then the tokens joined by single
      spaces (or the tuple's printed form, `repr`), then a newline. */
  function NgramLine(ngram: Ngram, writeN: bool, ngramAsString: bool, repr: Ngram -> string): string
  {
    (if writeN then Decimal(|ngram|) + "\t" else [])
    + (if ngramAsString then Join(ngram) else repr(ngram))
    + "\n"
  }

  // ---------------------------------------------------------------------------
  // parse_articles
  // ---------------------------------------------------------------------------

  /** One token sequence per page, in query order. */
  method ParseArticles(raws: seq<string>, stripHeaders: string -> string) returns (seqs: seq<seq<Token>>)
    ensures |seqs| == |raws|
    ensures forall i :: 0 <= i < |raws| ==> seqs[i] == CleanPage(raws[i], stripHeaders)
  {
    seqs := [];
    for i := 0 to |raws|
      invariant |seqs| == i
      invariant forall j :: 0 <= j < i ==> seqs[j] == CleanPage(raws[j], stripHeaders)
    {
      var wordsSeq := CleanPage(raws[i], stripHeaders);
      seqs := seqs + [wordsSeq];
    }
  }

  /** The inner loop of collect_data: starting from counter `size`, count and collect the
      everygrams of each sequence until the bound is reached. `prefix` is what the chain
      held before this batch. */
  method AddSequences(size: int, seqs: seq<seq<Token>>, minN: int, maxN: int, maxSize: int,
                      h: Helpers, ghost prefix: seq<Ngram>)
    returns (newSize: int, ngramGens: seq<seq<Ngram>>)
    ensures newSize >= size
    ensures AddSeqs(Tally(size, prefix), seqs, Settings(minN, maxN, maxSize, false), h)
         == Tally(newSize, prefix + Flatten(ngramGens))
  {
    ghost var cfg := Settings(minN, maxN, maxSize, false);
    newSize := size;
    ngramGens := [];
    var j := 0;
    assert prefix + Flatten(ngramGens) == prefix && seqs[j..] == seqs;
    while j < |seqs|
      invariant 0 <= j <= |seqs|
      invariant newSize >= size
      invariant AddSeqs(Tally(size, prefix), seqs, cfg, h)
             == AddSeqs(Tally(newSize, prefix + Flatten(ngramGens)), seqs[j..], cfg, h)
    {
      if maxSize > 0 && newSize >= maxSize {
        break;
      }
      var g := h.everygrams(seqs[j], minN, maxN);
      assert seqs[j..][0] == seqs[j] && seqs[j..][1..] == seqs[j + 1..];
      newSize := newSize + |g|;
      FlattenSnoc(ngramGens, g);
      assert prefix + Flatten(ngramGens + [g]) == (prefix + Flatten(ngramGens)) + g;
      ngramGens := ngramGens + [g];
      j := j + 1;
    }
  }

  /** The body of collect_data's outer loop for batch b: clean its pages, permute them
      when random selection is on, then count and chain their everygrams. `chained`
      is what the chain held before this batch. */
  method AddBatch(b: nat, raws: seq<string>, minN: int, maxN: int, maxSize: int, randomChoice: bool,
                  h: Helpers, size: int, ghost chained: seq<Ngram>)
    returns (newSize: int, batchGrams: seq<Ngram>)
    ensures newSize >= size
    ensures var cfg := Settings(minN, maxN, maxSize, randomChoice);
            AddSeqs(Tally(size, chained), Arrange(b, raws, cfg, h), cfg, h) == Tally(newSize, chained + batchGrams)
  {
    ghost var cfg := Settings(minN, maxN, maxSize, randomChoice);
    var seqs := ParseArticles(raws, h.stripHeaders);
    assert seqs == ParsedBatch(raws, h.stripHeaders);
    if randomChoice {
      seqs := h.shuffle(b, seqs);
    }
    assert seqs == Arrange(b, raws, cfg, h);
    AddSeqsIgnoresRandomChoice(Tally(size, chained), seqs, cfg, h);
    var ngramGens;
    newSize, ngramGens := AddSequences(size, seqs, minN, maxN, maxSize, h, chained);
    batchGrams := Flatten(ngramGens);
  }

  /** The spec of the inner loop does not read the random-selection flag. */
  lemma AddSeqsIgnoresRandomChoice(t: Tally, ss: seq<seq<Token>>, cfg: Settings, h: Helpers)
    ensures AddSeqs(t, ss, cfg, h) == AddSeqs(t, ss, cfg.(randomChoice := false), h)
    decreases |ss|
  {
    if ss != [] && !Full(t.size, cfg.maxSize) {
      var g := Grams(ss[0], cfg, h);
      AddSeqsIgnoresRandomChoice(Tally(t.size + |g|, t.units + g), ss[1..], cfg, h);
    }
  }

  // ---------------------------------------------------------------------------
  // Lemmas about collect_data
  // ---------------------------------------------------------------------------

  /** Feeding two lists of sequences one after the other is feeding their concatenation:
      once the bound is reached, nothing more is added. */
  lemma {:induction false} AddSeqsAppend(t: Tally, a: seq<seq<Token>>, b: seq<seq<Token>>, cfg: Settings, h: Helpers)
    ensures AddSeqs(t, a + b, cfg, h) == AddSeqs(AddSeqs(t, a, cfg, h), b, cfg, h)
    decreases |a|
  {
    if a == [] {
      assert a + b == b;
    } else if Full(t.size, cfg.maxSize) {
      assert AddSeqs(t, b, cfg, h) == t;
    } else {
      var g := Grams(a[0], cfg, h);
      assert (a + b)[0] == a[0] && (a + b)[1..] == a[1..] + b;
      AddSeqsAppend(Tally(t.size + |g|, t.units + g), a[1..], b, cfg, h);
    }
  }

  /** The check before each batch is subsumed by the check before each sequence: the
      nested loop is one loop over all sequences of all batches. */
  lemma {:induction false} AddBatchesIsFlat(t: Tally, bs: seq<seq<seq<Token>>>, cfg: Settings, h: Helpers)
    ensures AddBatches(t, bs, cfg, h) == AddSeqs(t, Flatten(bs), cfg, h)
    decreases |bs|
  {
    if bs != [] {
      assert bs == [bs[0]] + bs[1..];
      FlattenCons(bs[0], bs[1..]);
      if !Full(t.size, cfg.maxSize) {
        AddBatchesIsFlat(AddSeqs(t, bs[0], cfg, h), bs[1..], cfg, h);
        AddSeqsAppend(t, bs[0], Flatten(bs[1..]), cfg, h);
      }
    }
  }

  lemma ChainPrefixCons(ss: seq<seq<Token>>, j: nat, cfg: Settings, h: Helpers)
    requires 1 <= j <= |ss|
    ensures Chain(ss[..j], cfg, h) == Grams(ss[0], cfg, h) + Chain(ss[1..][..j - 1], cfg, h)
  {
    assert ss[..j][0] == ss[0] && ss[..j][1..] == ss[1..][..j - 1];
  }

  lemma {:induction false} ChainSnoc(ss: seq<seq<Token>>, s: seq<Token>, cfg: Settings, h: Helpers)
    ensures Chain(ss + [s], cfg, h) == Chain(ss, cfg, h) + Grams(s, cfg, h)
    decreases |ss|
  {
    if ss == [] {
      assert ss + [s] == [s];
      assert [s][1..] == [];
    } else {
      assert (ss + [s])[0] == ss[0] && (ss + [s])[1..] == ss[1..] + [s];
      ChainSnoc(ss[1..], s, cfg, h);
    }
  }

  /** The sequences are admitted one by one while the counter is below the bound: with k
      admitted, the counter grew by the n-gram count of the first k sequences and the
      chain holds exactly their n-grams; the counter was below the bound before each
      admitted sequence, and, if some sequence was not admitted, it reached the bound. */
  lemma {:induction false} AddSeqsPrefix(t: Tally, ss: seq<seq<Token>>, cfg: Settings, h: Helpers)
    ensures var k := Admitted(t.size, ss, cfg, h);
            AddSeqs(t, ss, cfg, h) == Tally(t.size + |Chain(ss[..k], cfg, h)|, t.units + Chain(ss[..k], cfg, h))
    ensures var k := Admitted(t.size, ss, cfg, h);
            forall j :: 0 <= j < k ==> !Full(t.size + |Chain(ss[..j], cfg, h)|, cfg.maxSize)
    ensures var k := Admitted(t.size, ss, cfg, h);
            k < |ss| ==> Full(t.size + |Chain(ss[..k], cfg, h)|, cfg.maxSize)
    decreases |ss|
  {
    var k := Admitted(t.size, ss, cfg, h);
    if ss == [] || Full(t.size, cfg.maxSize) {
      assert ss[..0] == [];
      assert t.units + [] == t.units;
    } else {
      var g := Grams(ss[0], cfg, h);
      var t' := Tally(t.size + |g|, t.units + g);
      AddSeqsPrefix(t', ss[1..], cfg, h);
      var k' := Admitted(t'.size, ss[1..], cfg, h);
      assert k == k' + 1;
      ChainPrefixCons(ss, k, cfg, h);
      assert t'.units + Chain(ss[1..][..k'], cfg, h) == t.units + Chain(ss[..k], cfg, h);
      forall j | 0 <= j < k ensures !Full(t.size + |Chain(ss[..j], cfg, h)|, cfg.maxSize) {
        if j == 0 {
          assert ss[..0] == [];
        } else {
          ChainPrefixCons(ss, j, cfg, h);
        }
      }
      if k < |ss| {
        assert k' < |ss[1..]|;
      }
    }
  }

  /** collect_data before its final islice: the counter starts at the current size, and the
      sequences of all batches are admitted in order until the counter reaches the bound
      (every sequence when the bound is not positive). */
  lemma GatheredPrefix(size0: int, pages: seq<seq<string>>, cfg: Settings, h: Helpers)
    ensures var ss := AllSeqs(pages, cfg, h);
            var k := Admitted(size0, ss, cfg, h);
            Gathered(size0, pages, cfg, h) == Tally(size0 + |Chain(ss[..k], cfg, h)|, Chain(ss[..k], cfg, h))
            && (forall j :: 0 <= j < k ==> !Full(size0 + |Chain(ss[..j], cfg, h)|, cfg.maxSize))
            && (k < |ss| ==> Full(size0 + |Chain(ss[..k], cfg, h)|, cfg.maxSize))
            && (cfg.maxSize <= 0 ==> k == |ss|)
  {
    var t0 := Tally(size0, []);
    var arr := Arranged(pages, cfg, h);
    var ss := Flatten(arr);
    assert ss == AllSeqs(pages, cfg, h);
    assert Gathered(size0, pages, cfg, h) == AddBatches(t0, arr, cfg, h);
    AddBatchesIsFlat(t0, arr, cfg, h);
    AddSeqsPrefix(t0, ss, cfg, h);
    var k := Admitted(size0, ss, cfg, h);
    var c := Chain(ss[..k], cfg, h);
    assert AddSeqs(t0, ss, cfg, h) == Tally(size0 + |c|, [] + c);
    assert [] + c == c;
  }

  /** With a positive bound and a counter below it at the start, the counter before
      truncation exceeds the bound by less than the n-gram count of the last sequence
      admitted; it reaches the bound unless every sequence was admitted. */
  lemma BoundedOvershoot(size0: int, pages: seq<seq<string>>, cfg: Settings, h: Helpers)
    requires cfg.maxSize > 0 && size0 < cfg.maxSize
    ensures var ss := AllSeqs(pages, cfg, h);
            var k := Admitted(size0, ss, cfg, h);
            var pre := Gathered(size0, pages, cfg, h).size;
            pre < cfg.maxSize + (if k > 0 then |Grams(ss[k - 1], cfg, h)| else 0)
            && (k < |ss| ==> pre >= cfg.maxSize)
  {
    GatheredPrefix(size0, pages, cfg, h);
    var ss := AllSeqs(pages, cfg, h);
    var k := Admitted(size0, ss, cfg, h);
    if k > 0 {
      ChainPrefixLength(ss, k, cfg, h);
    } else {
      assert ss[..0] == [];
    }
  }

  /** The n-gram count of the first k sequences is that of the first k - 1 plus that of
      sequence k - 1. */
  lemma ChainPrefixLength(ss: seq<seq<Token>>, k: nat, cfg: Settings, h: Helpers)
    requires 1 <= k <= |ss|
    ensures |Chain(ss[..k], cfg, h)| == |Chain(ss[..k - 1], cfg, h)| + |Grams(ss[k - 1], cfg, h)|
  {
    assert ss[..k] == ss[..k - 1] + [ss[k - 1]];
    ChainSnoc(ss[..k - 1], ss[k - 1], cfg, h);
  }

  /** The chain holds exactly as many n-grams as the counter grew by; with a positive
      bound the final generator is the first max_size of them (fewer when fewer were
      produced) while size is set to max_size regardless. */
  lemma TruncationCounts(size0: int, pages: seq<seq<string>>, cfg: Settings, h: Helpers)
    ensures var pre := Gathered(size0, pages, cfg, h);
            |pre.units| == pre.size - size0
    ensures var pre := Gathered(size0, pages, cfg, h);
            var c := Collected(size0, pages, cfg, h);
            cfg.maxSize > 0 ==>
              c.size == cfg.maxSize
              && |c.units| == Min(cfg.maxSize, pre.size - size0)
              && c.units == pre.units[..|c.units|]
  {
    GatheredPrefix(size0, pages, cfg, h);
  }

  /** collect_data does not restart the counter: when it already reached a positive bound,
      a new collection admits nothing and leaves an empty generator. */
  lemma AlreadyFull(size0: int, pages: seq<seq<string>>, cfg: Settings, h: Helpers)
    requires cfg.maxSize > 0 && size0 >= cfg.maxSize
    ensures Collected(size0, pages, cfg, h) == Tally(cfg.maxSize, [])
  {
    assert Gathered(size0, pages, cfg, h) == Tally(size0, []);
  }

  /** Adding one more batch after a list of batches is running the inner loop over it. */
  lemma AddBatchesSnoc(t: Tally, bs: seq<seq<seq<Token>>>, x: seq<seq<Token>>, cfg: Settings, h: Helpers)
    ensures AddBatches(t, bs + [x], cfg, h) == AddSeqs(AddBatches(t, bs, cfg, h), x, cfg, h)
  {
    AddBatchesIsFlat(t, bs + [x], cfg, h);
    AddBatchesIsFlat(t, bs, cfg, h);
    FlattenSnoc(bs, x);
    AddSeqsAppend(t, Flatten(bs), x, cfg, h);
  }

  /** Over a run of fetched batches the outer loop is AddBatches, provided the step after
      the run, if any, is not a failing pagination request (that request would be made
      even after the bound was reached). */
  lemma {:induction false} TraverseFetched(t: Tally, b: nat, steps: seq<Step>, pages: seq<seq<string>>,
                                           cfg: Settings, h: Helpers)
    requires b <= |pages| <= |steps|
    requires forall j :: 0 <= j < |pages| ==> steps[j] == Fetched(pages[j])
    requires |pages| < |steps| ==> !steps[|pages|].ListingFails?
    ensures Traverse(t, b, steps, cfg, h)
            == Traverse(AddBatches(t, Arranged(pages, cfg, h)[b..], cfg, h), |pages|, steps, cfg, h)
    decreases |pages| - b
  {
    var arr := Arranged(pages, cfg, h);
    if b == |pages| {
      assert arr[b..] == [];
    } else {
      assert arr[b..][0] == Arrange(b, pages[b], cfg, h) && arr[b..][1..] == arr[b + 1..];
      if !Full(t.size, cfg.maxSize) {
        TraverseFetched(AddSeqs(t, arr[b], cfg, h), b + 1, steps, pages, cfg, h);
      }
    }
  }

  /** When nothing fails, the outer loop ends normally with the state Gathered describes. */
  lemma AllFetchedTraverse(size0: int, pages: seq<seq<string>>, cfg: Settings, h: Helpers)
    ensures Traverse(Tally(size0, []), 0, AllFetched(pages), cfg, h) == Ending(Gathered(size0, pages, cfg, h), false)
  {
    var arr := Arranged(pages, cfg, h);
    TraverseFetched(Tally(size0, []), 0, AllFetched(pages), pages, cfg, h);
    assert arr[0..] == arr;
  }

  /** A page query that raises after the batches `pages` escapes collect_data unless the
      bound was already reached; the counter keeps every batch before it. */
  lemma QueryFailureAborts(size0: int, pages: seq<seq<string>>, rest: seq<Step>, cfg: Settings, h: Helpers)
    ensures var g := Gathered(size0, pages, cfg, h);
            Traverse(Tally(size0, []), 0, AllFetched(pages) + [QueryFails] + rest, cfg, h)
            == Ending(g, !Full(g.size, cfg.maxSize))
  {
    var steps := AllFetched(pages) + [QueryFails] + rest;
    var arr := Arranged(pages, cfg, h);
    assert steps[|pages|] == QueryFails;
    TraverseFetched(Tally(size0, []), 0, steps, pages, cfg, h);
    assert arr[0..] == arr;
  }

  /** A pagination request that raises after the batches `pages` escapes collect_data
      unless the loop broke off before the last of them; the counter keeps every batch
      before it. */
  lemma ListingFailureAborts(size0: int, pages: seq<seq<string>>, rest: seq<Step>, cfg: Settings, h: Helpers)
    ensures Traverse(Tally(size0, []), 0, AllFetched(pages) + [ListingFails] + rest, cfg, h)
            == Ending(Gathered(size0, pages, cfg, h),
                      |pages| == 0 || !Full(Gathered(size0, pages[..|pages| - 1], cfg, h).size, cfg.maxSize))
  {
    var steps := AllFetched(pages) + [ListingFails] + rest;
    var n := |pages|;
    assert steps[n] == ListingFails;
    if n == 0 {
      assert Gathered(size0, pages, cfg, h) == Tally(size0, []);
    } else {
      var front := pages[..n - 1];
      var arr := Arranged(pages, cfg, h);
      var arrFront := Arranged(front, cfg, h);
      TraverseFetched(Tally(size0, []), 0, steps, front, cfg, h);
      assert arrFront[0..] == arrFront;
      assert arr == arrFront + [Arrange(n - 1, pages[n - 1], cfg, h)];
      AddBatchesSnoc(Tally(size0, []), arrFront, Arrange(n - 1, pages[n - 1], cfg, h), cfg, h);
    }
  }

  lemma {:induction false} ChainLength(ss: seq<seq<Token>>, cfg: Settings, h: Helpers)
    requires IsEverygrams(h.everygrams) && InRange(cfg.minN, cfg.maxN)
    ensures |Chain(ss, cfg, h)| == WindowTotal(ss, cfg)
    decreases |ss|
  {
    if ss != [] {
      EverygramsCount(h.everygrams, ss[0], cfg.minN, cfg.maxN);
      ChainLength(ss[1..], cfg, h);
    }
  }

  lemma {:induction false} WindowTotalAppend(a: seq<seq<Token>>, b: seq<seq<Token>>, cfg: Settings)
    ensures WindowTotal(a + b, cfg) == WindowTotal(a, cfg) + WindowTotal(b, cfg)
    decreases |a|
  {
    if a == [] {
      assert a + b == b;
    } else {
      assert (a + b)[0] == a[0] && (a + b)[1..] == a[1..] + b;
      WindowTotalAppend(a[1..], b, cfg);
    }
  }

  /** Reordering the sequences of a batch does not change their total window count. */
  lemma {:induction false} WindowTotalPermutation(a: seq<seq<Token>>, b: seq<seq<Token>>, cfg: Settings)
    requires multiset(a) == multiset(b)
    ensures WindowTotal(a, cfg) == WindowTotal(b, cfg)
    decreases |a|
  {
    if a == [] {
      assert |b| == |multiset(b)| == 0;
    } else {
      var x := a[0];
      assert x in multiset(b);
      var i :| 0 <= i < |b| && b[i] == x;
      assert b == b[..i] + [x] + b[i + 1..];
      WindowTotalAppend(b[..i] + [x], b[i + 1..], cfg);
      WindowTotalAppend(b[..i], [x], cfg);
      WindowTotalAppend(b[..i], b[i + 1..], cfg);
      assert a == [x] + a[1..];
      assert multiset(a) == multiset([x]) + multiset(a[1..]);
      assert multiset(b) == multiset(b[..i]) + multiset([x]) + multiset(b[i + 1..]);
      assert multiset(b[..i] + b[i + 1..]) == multiset(b[..i]) + multiset(b[i + 1..]);
      assert multiset(a[1..]) == multiset(a) - multiset([x]);
      assert multiset(a[1..]) == multiset(b[..i] + b[i + 1..]);
      WindowTotalPermutation(a[1..], b[..i] + b[i + 1..], cfg);
    }
  }

  lemma {:induction false} WindowTotalFlatten(pages: seq<seq<string>>, cfg: Settings, h: Helpers)
    requires IsShuffler(h.shuffle)
    ensures WindowTotal(AllSeqs(pages, cfg, h), cfg) == PagesWindowTotal(pages, cfg, h)
    decreases |pages|
  {
    if pages != [] {
      var n := |pages| - 1;
      var arr := Arranged(pages, cfg, h);
      var init := Arranged(pages[..n], cfg, h);
      assert arr == init + [arr[n]];
      FlattenSnoc(init, arr[n]);
      WindowTotalAppend(Flatten(init), arr[n], cfg);
      WindowTotalPermutation(arr[n], ParsedBatch(pages[n], h.stripHeaders), cfg);
      WindowTotalFlatten(pages[..n], cfg, h);
    }
  }

  /** Without a positive bound, size grows by exactly the number of windows of length in
      [min_n, max_n] over every page of every batch (random selection or not), and the
      generator is the n-grams of every sequence, batch by batch, sequence by sequence. */
  lemma UnboundedCollectsAll(size0: int, pages: seq<seq<string>>, cfg: Settings, h: Helpers)
    requires ValidHelpers(h) && InRange(cfg.minN, cfg.maxN) && cfg.maxSize <= 0
    ensures Collected(size0, pages, cfg, h).size == size0 + PagesWindowTotal(pages, cfg, h)
    ensures Collected(size0, pages, cfg, h).units == Chain(AllSeqs(pages, cfg, h), cfg, h)
  {
    GatheredPrefix(size0, pages, cfg, h);
    var ss := AllSeqs(pages, cfg, h);
    assert ss[..|ss|] == ss;
    ChainLength(ss, cfg, h);
    WindowTotalFlatten(pages, cfg, h);
  }

  /** With random selection, batch k's sequences are a permutation of the cleaned pages of
      batch k; batches stay in pagination order; without it, the pages' order is kept. */
  lemma ArrangementPermutes(pages: seq<seq<string>>, cfg: Settings, h: Helpers)
    requires IsShuffler(h.shuffle)
    ensures |Arranged(pages, cfg, h)| == |pages|
    ensures forall k :: 0 <= k < |pages| ==>
              multiset(Arranged(pages, cfg, h)[k]) == multiset(ParsedBatch(pages[k], h.stripHeaders))
    ensures !cfg.randomChoice ==> forall k :: 0 <= k < |pages| ==>
              Arranged(pages, cfg, h)[k] == ParsedBatch(pages[k], h.stripHeaders)
  {
  }

  lemma {:induction false} ChainMembership(ss: seq<seq<Token>>, cfg: Settings, h: Helpers, w: Ngram)
    requires w in Chain(ss, cfg, h)
    ensures exists i :: 0 <= i < |ss| && w in Grams(ss[i], cfg, h)
    decreases |ss|
  {
    if w !in Grams(ss[0], cfg, h) {
      ChainMembership(ss[1..], cfg, h, w);
      var i :| 0 <= i < |ss[1..]| && w in Grams(ss[1..][i], cfg, h);
      assert ss[1..][i] == ss[i + 1];
    }
  }

  /** Every sequence collect_data works on is the cleaned text of one page. */
  lemma AllSeqsAreCleanPages(pages: seq<seq<string>>, cfg: Settings, h: Helpers, s: seq<Token>)
    requires IsShuffler(h.shuffle)
    requires s in AllSeqs(pages, cfg, h)
    ensures exists b, j :: 0 <= b < |pages| && 0 <= j < |pages[b]| && s == CleanPage(pages[b][j], h.stripHeaders)
  {
    var arr := Arranged(pages, cfg, h);
    FlattenMembership(arr, s);
    var b :| 0 <= b < |arr| && s in arr[b];
    var parsed := ParsedBatch(pages[b], h.stripHeaders);
    assert multiset(arr[b]) == multiset(parsed);
    assert s in multiset(arr[b]);
    assert s in parsed;
    var j :| 0 <= j < |parsed| && parsed[j] == s;
    assert s == CleanPage(pages[b][j], h.stripHeaders);
  }

  /** Every unit of the final generator is among the n-grams of one admitted sequence. */
  lemma CollectedUnitsFromSeqs(size0: int, pages: seq<seq<string>>, cfg: Settings, h: Helpers, w: Ngram)
    requires w in Collected(size0, pages, cfg, h).units
    ensures exists s :: s in AllSeqs(pages, cfg, h) && w in Grams(s, cfg, h)
  {
    GatheredPrefix(size0, pages, cfg, h);
    var ss := AllSeqs(pages, cfg, h);
    var k := Admitted(size0, ss, cfg, h);
    var pre := Gathered(size0, pages, cfg, h);
    assert pre.units == Chain(ss[..k], cfg, h);
    assert w in pre.units;
    ChainMembership(ss[..k], cfg, h, w);
    var i :| 0 <= i < |ss[..k]| && w in Grams(ss[..k][i], cfg, h);
    assert ss[..k][i] in ss;
  }

  /** Every unit of the final generator is a contiguous window, of a length allowed by
      [min_n, max_n], of the cleaned text of some page; so each of its tokens is clean. */
  lemma CollectedUnitsAreCleanWindows(size0: int, pages: seq<seq<string>>, cfg: Settings, h: Helpers, w: Ngram)
    requires ValidHelpers(h) && InRange(cfg.minN, cfg.maxN)
    requires w in Collected(size0, pages, cfg, h).units
    ensures exists b, j :: 0 <= b < |pages| && 0 <= j < |pages[b]| &&
              IsWindowOf(w, CleanPage(pages[b][j], h.stripHeaders), cfg)
    ensures forall t :: t in w ==> IsCleanToken(t)
  {
    CollectedUnitsFromSeqs(size0, pages, cfg, h, w);
    var s :| s in AllSeqs(pages, cfg, h) && w in Grams(s, cfg, h);
    AllSeqsAreCleanPages(pages, cfg, h, s);
    var b, j :| 0 <= b < |pages| && 0 <= j < |pages[b]| && s == CleanPage(pages[b][j], h.stripHeaders);
    EverygramsMembership(h.everygrams, s, cfg.minN, cfg.maxN, w);
    assert IsWindowOf(w, s, cfg);
    CleanPageTokens(pages[b][j], h.stripHeaders);
    var p :| IsSliceAt(w, s, p);
    forall t | t in w ensures IsCleanToken(t) {
      var q :| 0 <= q < |w| && w[q] == t;
      assert s[p + q] == t;
    }
  }

  // ---------------------------------------------------------------------------
  // Lemmas about save_tsv records
  // ---------------------------------------------------------------------------

  /** A record of clean tokens written with its length prefix reads back: the text before
      the first tab is the decimal n-gram length, the rest is the tokens joined by spaces
      and a newline, and splitting that on whitespace gives the n-gram again. */
  lemma NgramLineReadBack(ngram: Ngram, repr: Ngram -> string)
    requires forall t :: t in ngram ==> IsCleanToken(t)
    ensures var line := NgramLine(ngram, true, true, repr);
            SplitAtFirstTab(line) == Some((Decimal(|ngram|), Join(ngram) + "\n"))
            && ReadDecimal(Decimal(|ngram|)) == |ngram|
            && Split(Join(ngram)) == ngram
            && line[|line| - 1] == '\n'
  {
    DecimalRoundTrip(|ngram|);
    assert !IsDigit('\t');
    assert NgramLine(ngram, true, true, repr) == Decimal(|ngram|) + "\t" + (Join(ngram) + "\n");
    SplitAtFirstTabOfPrefixed(Decimal(|ngram|), Join(ngram) + "\n");
    SplitJoin(ngram);
  }

  // ---------------------------------------------------------------------------
  // The Corpus object
  // ---------------------------------------------------------------------------

  class Corpus {
    var size: int
    var generator: seq<Ngram>
    const lang: string

    ghost predicate Valid()
      reads this
    {
      size >= 0
    }

    constructor (lang: string)
      ensures Valid()
      ensures this.lang == lang && size == 0 && generator == []
    {
      this.size := 0;
      this.lang := lang;
      this.generator := [];
    }

    /** __len__: the size counter, never negative. */
    function Len(): (n: int)
      reads this
      requires Valid()
      ensures n == size && n >= 0
    {
      size
    }

    function GetData(): (units: seq<Ngram>)
      reads this
      ensures units == generator
    {
      generator
    }

    method ResetData()
      modifies this
      ensures Valid()
      ensures size == 0 && generator == []
    {
      generator := [];
      size := 0;
    }

    /** collect_data. When an exception escapes, the generator is never replaced, while
        size keeps what the batches before the failure added. */
    method CollectData(minN: int, maxN: int, maxSize: int, randomChoice: bool,
                       steps: seq<Step>, h: Helpers) returns (aborted: bool)
      requires Valid()
      modifies this
      ensures Valid()
      ensures var e := Traverse(Tally(old(size), []), 0, steps, Settings(minN, maxN, maxSize, randomChoice), h);
              aborted == e.aborted
              && (aborted ==> size == e.t.size && generator == old(generator))
              && (!aborted ==> var c := Truncate(e.t, maxSize); size == c.size && generator == c.units)
    {
      ghost var cfg := Settings(minN, maxN, maxSize, randomChoice);
      ghost var goal := Traverse(Tally(size, []), 0, steps, cfg, h);
      var corpusGens: seq<seq<Ngram>> := [];
      var b := 0;
      while b < |steps|
        invariant 0 <= b <= |steps|
        invariant size >= old(size) && generator == old(generator)
        invariant goal == Traverse(Tally(size, Flatten(corpusGens)), b, steps, cfg, h)
      {
        if steps[b].ListingFails? {
          return true;
        }
        if maxSize > 0 && size >= maxSize {
          break;
        }
        if steps[b].QueryFails? {
          return true;
        }
        ghost var before := Tally(size, Flatten(corpusGens));
        var batchGrams;
        size, batchGrams := AddBatch(b, steps[b].raws, minN, maxN, maxSize, randomChoice, h, size, before.units);
        FlattenSnoc(corpusGens, batchGrams);
        corpusGens := corpusGens + [batchGrams];
        b := b + 1;
      }
      generator := Flatten(corpusGens);
      if maxSize > 0 {
        generator := generator[..Min(maxSize, |generator|)];
        size := maxSize;
      }
      return false;
    }

    /** The lines save_tsv writes, one per unit of the generator, in order. */
    method SaveTsv(writeN: bool, ngramAsString: bool, repr: Ngram -> string) returns (written: seq<string>)
      ensures |written| == |generator|
      ensures forall i :: 0 <= i < |generator| ==>
                written[i] == NgramLine(generator[i], writeN, ngramAsString, repr)
    {
      written := [];
      for i := 0 to |generator|
        invariant |written| == i
        invariant forall j :: 0 <= j < i ==> written[j] == NgramLine(generator[j], writeN, ngramAsString, repr)
      {
        var ngram := generator[i];
        var resString: string := [];
        if writeN {
          resString := resString + Decimal(|ngram|) + "\t";
        }
        var ngramString := if !ngramAsString then repr(ngram) + "\n" else Join(ngram) + "\n";
        resString := resString + ngramString;
        written := written + [resString];
      }
    }
  }
}
