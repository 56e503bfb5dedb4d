/** The paragraph corpus of corpus.py: a Corpus object whose collect_data runs
    rounds. Each round takes up to 2 * n_proc page batches from the article
    index, maps the batch worker over them in submission order, adds the
    lengths of the results to size and appends them to the chain; the loop
    stops after the first round that leaves size >= max_size. The batch worker
    fetches each page's HTML extract, cleans it, and collects its <p> texts,
    skipping any page whose fetch or parse fails. save_tsv renders the chain as
    one record per paragraph.

    The remote index is an input: `pages` holds the page-identifier batches in
    pagination order, and `indexFails` says whether asking it for the batch after
    the last one raises instead of signalling the end. */
module ParagraphCorpus {
  import opened Common

  type PageId = int

  /** The remote site and the HTML parser, as parameters. `extract(id)` is the page's
      HTML extract, or None when the query, the indexing of its reply or the missing
      "extract" key raises; `paragraphs(html)` is the text of every <p> element in
      document order, or None when parsing raises. `shuffle` is np.random.permutation. */
  datatype Site = Site(
    extract: PageId -> Option<string>,
    paragraphs: string -> Option<seq<string>>,
    shuffle: (nat, seq<string>) -> seq<string>)

  /** The constructor options the collection reads. */
  datatype Settings = Settings(maxSize: int, randomChoice: bool)

  datatype Outcome =
    | Done
      /** The round loop would run forever: the index is exhausted below max_size. */
    | Spins
      /** Asking the article index for a batch raised something other than StopIteration,
          which escapes collect_data while a round is being filled. */
    | Aborted
      /** mp.Pool refuses fewer than one process (ValueError). */
    | PoolError

  // ---------------------------------------------------------------------------
  // Extract cleanup
  // ---------------------------------------------------------------------------

  const NBSP: char := '\U{A0}'

  /** str.replace("\xa0", " ") */
  function ReplaceNbsp(s: string): string
    decreases |s|
  {
    if s == [] then [] else [if s[0] == NBSP then ' ' else s[0]] + ReplaceNbsp(s[1..])
  }

  /** str.replace("\n", "") */
  function DropNewlines(s: string): string
    decreases |s|
  {
    if s == [] then [] else (if s[0] == '\n' then [] else [s[0]]) + DropNewlines(s[1..])
  }

  function CleanExtract(html: string): string
  {
    DropNewlines(ReplaceNbsp(html))
  }

  function CountChar(s: string, c: char): nat
    decreases |s|
  {
    if s == [] then 0 else (if s[0] == c then 1 else 0) + CountChar(s[1..], c)
  }

  // ---------------------------------------------------------------------------
  // Specification of the batch worker
  // ---------------------------------------------------------------------------

  /** The paragraphs one page contributes: none when its fetch or its parse fails. */
  function PageParagraphs(id: PageId, site: Site): seq<string>
  {
    match site.extract(id)
    case None => []
    case Some(html) =>
      match site.paragraphs(CleanExtract(html))
      case None => []
      case Some(ps) => ps
  }

  /** The paragraphs of the pages, in page order. */
  function BatchParagraphs(ids: seq<PageId>, site: Site): seq<string>
    decreases |ids|
  {
    if ids == [] then []
    else BatchParagraphs(ids[..|ids| - 1], site) + PageParagraphs(ids[|ids| - 1], site)
  }

  /** What the worker returns for batch k: permuted when random selection is on. */
  function WorkerResult(k: nat, ids: seq<PageId>, cfg: Settings, site: Site): seq<string>
  {
    var ps := BatchParagraphs(ids, site);
    if cfg.randomChoice then site.shuffle(k, ps) else ps
  }

  // ---------------------------------------------------------------------------
  // Specification of the round loop
  // ---------------------------------------------------------------------------

  /** Where a round that starts at `cursor` stops taking batches. */
  function RoundEnd(cursor: nat, nProc: nat, total: nat): nat
  {
    Min(cursor + 2 * nProc, total)
  }

  /** The worker results for batches from..to-1, in submission order. */
  function RoundResults(pages: seq<seq<PageId>>, from: nat, to: nat, cfg: Settings, site: Site): seq<seq<string>>
    requires from <= to <= |pages|
  {
    seq(to - from, i requires 0 <= i < to - from => WorkerResult(from + i, pages[from + i], cfg, site))
  }

  /** The paragraph count of batches from..to-1. */
  function RangeTotal(pages: seq<seq<PageId>>, from: nat, to: nat, cfg: Settings, site: Site): nat
    requires from <= to <= |pages|
  {
    TotalLength(RoundResults(pages, from, to, cfg, site))
  }

  /** Where the round loop ends: the counter, the number of batches counted, and how
      collect_data leaves the loop. An aborted run stops at the start of the round
      whose filling raised, with the counter of the rounds before it. */
  datatype RunEnd = RunEnd(size: int, cursor: nat, end: Outcome)

  /** The round loop from `cursor` on. A round that needs more batches than remain asks
      the index once past its end; when `fails`, that request raises before the round's
      workers run. */
  function Run(size: int, cursor: nat, pages: seq<seq<PageId>>, nProc: nat, fails: bool, cfg: Settings, site: Site): (r: RunEnd)
    requires 1 <= nProc && cursor <= |pages|
    ensures cursor <= r.cursor <= |pages| && r.size >= size
    ensures r.end != PoolError
    ensures r.end == Done ==> r.size >= cfg.maxSize
    ensures r.end == Spins ==> r.cursor == |pages| && r.size < cfg.maxSize && !fails
    ensures r.end == Aborted ==> fails && r.cursor + 2 * nProc > |pages|
    decreases |pages| - cursor
  {
    var e := RoundEnd(cursor, nProc, |pages|);
    if fails && cursor + 2 * nProc > |pages| then RunEnd(size, cursor, Aborted)
    else
      var s := size + RangeTotal(pages, cursor, e, cfg, site);
      if s >= cfg.maxSize then RunEnd(s, e, Done)
      else if e == cursor then RunEnd(s, e, Spins)
      else Run(s, e, pages, nProc, fails, cfg, site)
  }

  /** A round that neither raises, nor reaches max_size, nor finds the index exhausted
      hands the loop on to the next round. */
  lemma RunContinues(size: int, cursor: nat, pages: seq<seq<PageId>>, nProc: nat, fails: bool, cfg: Settings, site: Site)
    requires 1 <= nProc && cursor <= |pages|
    requires !(fails && cursor + 2 * nProc > |pages|)
    requires size + RangeTotal(pages, cursor, RoundEnd(cursor, nProc, |pages|), cfg, site) < cfg.maxSize
    requires RoundEnd(cursor, nProc, |pages|) != cursor
    ensures Run(size, cursor, pages, nProc, fails, cfg, site)
            == Run(size + RangeTotal(pages, cursor, RoundEnd(cursor, nProc, |pages|), cfg, site),
                   RoundEnd(cursor, nProc, |pages|), pages, nProc, fails, cfg, site)
  {
  }

  /** The results of a span of batches are those of its two halves, one after the other. */
  lemma RoundResultsSplit(pages: seq<seq<PageId>>, a: nat, b: nat, c: nat, cfg: Settings, site: Site)
    requires a <= b <= c <= |pages|
    ensures RoundResults(pages, a, c, cfg, site) == RoundResults(pages, a, b, cfg, site) + RoundResults(pages, b, c, cfg, site)
  {
  }

  // ---------------------------------------------------------------------------
  // Records written by save_tsv
  // ---------------------------------------------------------------------------

  /** One record: optionally the paragraph's character count and a tab, then the
      paragraph, then a newline. */
  function ParagraphLine(p: string, writeLen: bool): string
  {
    (if writeLen then Decimal(|p|) + "\t" else []) + p + "\n"
  }

  // ---------------------------------------------------------------------------
  // The round loop's batch filling, as its own method
  // ---------------------------------------------------------------------------

  /** The inner `while len(batch) < 2 * n_proc` loop: take batches until the round is full
      or the index is exhausted; `raised` when the request past the last batch raises. */
  method FillRound(pages: seq<seq<PageId>>, cursor: nat, nProc: nat, fails: bool)
    returns (batch: seq<seq<PageId>>, next: nat, raised: bool)
    requires cursor <= |pages|
    ensures next == RoundEnd(cursor, nProc, |pages|)
    ensures batch == pages[cursor..next]
    ensures |batch| <= 2 * nProc && (|batch| < 2 * nProc ==> next == |pages|)
    ensures raised <==> fails && cursor + 2 * nProc > |pages|
  {
    batch := [];
    next := cursor;
    raised := false;
    while |batch| < 2 * nProc
      invariant cursor <= next <= |pages| && next - cursor <= 2 * nProc
      invariant batch == pages[cursor..next]
      invariant |batch| < 2 * nProc || next == cursor + 2 * nProc
      invariant !raised
      decreases 2 * nProc - |batch|
    {
      if next == |pages| {
        // next(pages_gen) either raises or signals the end with StopIteration
        raised := fails;
        break;
      }
      batch := batch + [pages[next]];
      next := next + 1;
    }
  }

  // ---------------------------------------------------------------------------
  // The Corpus object
  // ---------------------------------------------------------------------------

  class Corpus {
    var size: int
    var generator: seq<string>
    const lang: string
    const maxSize: int
    const randomChoice: bool

    ghost predicate Valid()
      reads this
    {
      size >= 0
    }

    constructor (lang: string, maxSize: int, randomChoice: bool)
      ensures Valid()
      ensures this.lang == lang && this.maxSize == maxSize && this.randomChoice == randomChoice
      ensures size == 0 && generator == []
    {
      this.size := 0;
      this.lang := lang;
      this.generator := [];
      this.maxSize := maxSize;
      this.randomChoice := randomChoice;
    }

    /** __len__: the size counter, never negative. */
    function Len(): (n: int)
      reads this
      requires Valid()
      ensures n == size && n >= 0
    {
      size
    }

    function GetData(): (units: seq<string>)
      reads this
      ensures units == generator
    {
      generator
    }

    method ResetData()
      modifies this
      ensures Valid()
      ensures size == 0 && generator == []
    {
      generator := [];
      size := 0;
    }

    /** __iterate_wikipages_by_id__ for batch k: the paragraphs of the pages in order,
        failed pages skipped, permuted as a whole when random selection is on. */
    method IterateWikipagesById(k: nat, pageids: seq<PageId>, site: Site) returns (paragraphs: seq<string>)
      ensures paragraphs == WorkerResult(k, pageids, Settings(maxSize, randomChoice), site)
    {
      paragraphs := [];
      for i := 0 to |pageids|
        invariant paragraphs == BatchParagraphs(pageids[..i], site)
      {
        assert pageids[..i + 1][..i] == pageids[..i];
        var pageid := pageids[i];
        var info := site.extract(pageid);
        if info.None? {
          continue;
        }
        var htmlText := CleanExtract(info.value);
        var soup := site.paragraphs(htmlText);
        if soup.None? {
          continue;
        }
        var ps := soup.value;
        ghost var before := paragraphs;
        for j := 0 to |ps|
          invariant paragraphs == before + ps[..j]
        {
          assert ps[..j + 1] == ps[..j] + [ps[j]];
          paragraphs := paragraphs + [ps[j]];
        }
        assert ps[..|ps|] == ps;
      }
      assert pageids[..|pageids|] == pageids;
      if randomChoice {
        paragraphs := site.shuffle(k, paragraphs);
      }
    }

    /** pool.starmap over one round's batches, in submission order; `first` is the
        index of the round's first batch. */
    method Dispatch(first: nat, batch: seq<seq<PageId>>, site: Site) returns (res: seq<seq<string>>)
      ensures |res| == |batch|
      ensures forall i :: 0 <= i < |batch| ==>
                res[i] == WorkerResult(first + i, batch[i], Settings(maxSize, randomChoice), site)
    {
      res := [];
      for i := 0 to |batch|
        invariant |res| == i
        invariant forall j :: 0 <= j < i ==>
                    res[j] == WorkerResult(first + j, batch[j], Settings(maxSize, randomChoice), site)
      {
        var r := IterateWikipagesById(first + i, batch[i], site);
        res := res + [r];
      }
    }

    /** One round's bookkeeping: add each result's length to size and append it to
        the chain. */
    method AddRound(size0: int, gens0: seq<seq<string>>, res: seq<seq<string>>) returns (size1: int, gens1: seq<seq<string>>)
      ensures size1 == size0 + TotalLength(res)
      ensures gens1 == gens0 + res
    {
      size1, gens1 := size0, gens0;
      for i := 0 to |res|
        invariant size1 == size0 + TotalLength(res[..i])
        invariant gens1 == gens0 + res[..i]
      {
        assert res[..i + 1] == res[..i] + [res[i]];
        assert res[..i + 1][..i] == res[..i];
        size1 := size1 + |res[i]|;
        gens1 := gens1 + [res[i]];
      }
      assert res[..|res|] == res;
    }

    /** One pass of the round loop's body: fill a round, run the workers, count and
        chain their results. */
    method Round(nProc: nat, pages: seq<seq<PageId>>, cursor: nat, size0: int, gens0: seq<seq<string>>,
                 fails: bool, site: Site)
      returns (next: nat, size1: int, gens1: seq<seq<string>>, raised: bool)
      requires cursor <= |pages|
      requires gens0 == RoundResults(pages, 0, cursor, Settings(maxSize, randomChoice), site)
      ensures raised <==> fails && cursor + 2 * nProc > |pages|
      ensures !raised ==>
                next == RoundEnd(cursor, nProc, |pages|)
                && size1 == size0 + RangeTotal(pages, cursor, next, Settings(maxSize, randomChoice), site)
                && gens1 == RoundResults(pages, 0, next, Settings(maxSize, randomChoice), site)
    {
      var batch;
      batch, next, raised := FillRound(pages, cursor, nProc, fails);
      if raised {
        return next, size0, gens0, true;
      }
      var res := Dispatch(cursor, batch, site);
      assert res == RoundResults(pages, cursor, next, Settings(maxSize, randomChoice), site);
      RoundResultsSplit(pages, 0, cursor, next, Settings(maxSize, randomChoice), site);
      size1, gens1 := AddRound(size0, gens0, res);
    }

    /** One pass of the `while True` body, lines 54-71: a round, then the stopping test.
        `stop` is None when the loop goes on to the next round. */
    method LoopBody(nProc: nat, pages: seq<seq<PageId>>, cursor: nat, size0: int, gens0: seq<seq<string>>,
                    fails: bool, site: Site)
      returns (next: nat, size1: int, gens1: seq<seq<string>>, stop: Option<Outcome>)
      requires 1 <= nProc && cursor <= |pages|
      requires gens0 == RoundResults(pages, 0, cursor, Settings(maxSize, randomChoice), site)
      ensures cursor <= next <= |pages|
      ensures gens1 == RoundResults(pages, 0, next, Settings(maxSize, randomChoice), site)
      ensures stop.None? ==>
                cursor < next
                && Run(size0, cursor, pages, nProc, fails, Settings(maxSize, randomChoice), site)
                   == Run(size1, next, pages, nProc, fails, Settings(maxSize, randomChoice), site)
      ensures stop.Some? ==>
                Run(size0, cursor, pages, nProc, fails, Settings(maxSize, randomChoice), site)
                == RunEnd(size1, next, stop.value)
    {
      var raised;
      next, size1, gens1, raised := Round(nProc, pages, cursor, size0, gens0, fails, site);
      if raised {
        return cursor, size0, gens0, Some(Aborted);
      }
      if size1 >= maxSize {
        return next, size1, gens1, Some(Done);
      }
      if next == cursor {
        return next, size1, gens1, Some(Spins);
      }
      RunContinues(size0, cursor, pages, nProc, fails, Settings(maxSize, randomChoice), site);
      stop := None;
    }

    /** The `while True` round loop of collect_data, counting on from `size0`: it returns
        the counter and the chained results where the loop leaves off, and how it does. */
    method RunRounds(nProc: nat, pages: seq<seq<PageId>>, indexFails: bool, site: Site, size0: int)
      returns (size1: int, corpusGens: seq<seq<string>>, end: Outcome)
      requires 1 <= nProc
      ensures var r := Run(size0, 0, pages, nProc, indexFails, Settings(maxSize, randomChoice), site);
              size1 == r.size && end == r.end
              && corpusGens == RoundResults(pages, 0, r.cursor, Settings(maxSize, randomChoice), site)
    {
      ghost var cfg := Settings(maxSize, randomChoice);
      ghost var goal := Run(size0, 0, pages, nProc, indexFails, cfg, site);
      size1, corpusGens := size0, [];
      var cursor: nat := 0;
      while true
        invariant cursor <= |pages|
        invariant corpusGens == RoundResults(pages, 0, cursor, cfg, site)
        invariant goal == Run(size1, cursor, pages, nProc, indexFails, cfg, site)
        decreases |pages| - cursor
      {
        var next, newSize, newGens, stop := LoopBody(nProc, pages, cursor, size1, corpusGens, indexFails, site);
        if stop.Some? {
          return newSize, newGens, stop.value;
        }
        size1, corpusGens, cursor := newSize, newGens, next;
      }
    }

    /** collect_data. With a spinning loop or an escaping exception the generator
        is never replaced, while size keeps what the finished rounds added. */
    method CollectData(nProc: int, pages: seq<seq<PageId>>, indexFails: bool, site: Site) returns (outcome: Outcome)
      requires Valid()
      modifies this
      ensures Valid()
      ensures nProc < 1 ==> outcome == PoolError && size == old(size) && generator == old(generator)
      ensures nProc >= 1 ==>
                var r := Run(old(size), 0, pages, nProc, indexFails, Settings(maxSize, randomChoice), site);
                var units := Flatten(RoundResults(pages, 0, r.cursor, Settings(maxSize, randomChoice), site));
                outcome == r.end
                && (r.end != Done ==> size == r.size && generator == old(generator))
                && (r.end == Done ==>
                      size == (if maxSize > 0 then maxSize else r.size)
                      && generator == (if maxSize > 0 then units[..Min(maxSize, |units|)] else units))
    {
      if nProc < 1 {
        return PoolError;
      }
      var corpusGens, end;
      size, corpusGens, end := RunRounds(nProc, pages, indexFails, site, size);
      if end != Done {
        return end;
      }
      generator := Flatten(corpusGens);
      if maxSize > 0 {
        generator := generator[..Min(maxSize, |generator|)];
        size := maxSize;
      }
      return Done;
    }

    /** The lines save_tsv writes, one per paragraph of the generator, in order. */
    method SaveTsv(writeLen: bool) returns (written: seq<string>)
      ensures |written| == |generator|
      ensures forall i :: 0 <= i < |generator| ==> written[i] == ParagraphLine(generator[i], writeLen)
    {
      written := [];
      for i := 0 to |generator|
        invariant |written| == i
        invariant forall j :: 0 <= j < i ==> written[j] == ParagraphLine(generator[j], writeLen)
      {
        var paragraph := generator[i];
        var resString: string := [];
        if writeLen {
          resString := resString + Decimal(|paragraph|) + "\t";
        }
        resString := resString + paragraph;
        resString := resString + "\n";
        written := written + [resString];
      }
    }
  }
}
