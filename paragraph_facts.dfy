/** Properties of the paragraph corpus model: what the extract cleanup leaves,
    where every collected paragraph comes from, when the round loop stops (and
    when it never does), how many paragraphs it gathers, and how a written
    record reads back. */
module ParagraphFacts {
  import opened Common
  import opened ParagraphCorpus

  // ---------------------------------------------------------------------------
  // Extract cleanup
  // ---------------------------------------------------------------------------

  /** Replacing no-break spaces keeps the length and the position of every other
      character, and leaves text without no-break spaces as it is. */
  lemma {:induction false} ReplaceNbspSpec(s: string)
    ensures |ReplaceNbsp(s)| == |s|
    ensures forall i :: 0 <= i < |s| ==> ReplaceNbsp(s)[i] == (if s[i] == NBSP then ' ' else s[i])
    ensures CountChar(ReplaceNbsp(s), '\n') == CountChar(s, '\n')
    ensures NBSP !in s ==> ReplaceNbsp(s) == s
    decreases |s|
  {
    if s != [] {
      ReplaceNbspSpec(s[1..]);
      var r := ReplaceNbsp(s);
      assert r == [if s[0] == NBSP then ' ' else s[0]] + ReplaceNbsp(s[1..]);
      assert r[1..] == ReplaceNbsp(s[1..]);
      forall i | 0 < i < |s| ensures r[i] == (if s[i] == NBSP then ' ' else s[i]) {
        assert r[i] == ReplaceNbsp(s[1..])[i - 1];
        assert s[i] == s[1..][i - 1];
      }
      if NBSP !in s {
        assert NBSP !in s[1..];
      }
    }
  }

  /** Dropping newlines keeps exactly the other characters, shortens the text by its
      number of newlines, and leaves text without newlines as it is. */
  lemma {:induction false} DropNewlinesSpec(s: string)
    ensures forall c :: c in DropNewlines(s) <==> c in s && c != '\n'
    ensures |DropNewlines(s)| == |s| - CountChar(s, '\n')
    ensures '\n' !in s ==> DropNewlines(s) == s
    decreases |s|
  {
    if s != [] {
      DropNewlinesSpec(s[1..]);
      assert s == [s[0]] + s[1..];
      if '\n' !in s {
        assert '\n' !in s[1..];
      }
    }
  }

  /** The cleaned extract holds no newline and no no-break space; each no-break space
      became a space and each newline vanished; cleaning twice is cleaning once. */
  lemma CleanExtractSpec(html: string)
    ensures NBSP !in CleanExtract(html) && '\n' !in CleanExtract(html)
    ensures |CleanExtract(html)| == |html| - CountChar(html, '\n')
    ensures forall c :: c in CleanExtract(html) <==>
              c != '\n' && c != NBSP && (c in html || (c == ' ' && NBSP in html))
    ensures CleanExtract(CleanExtract(html)) == CleanExtract(html)
  {
    var m := ReplaceNbsp(html);
    var r := DropNewlines(m);
    ReplaceNbspSpec(html);
    DropNewlinesSpec(m);
    forall c ensures c in m <==> c != NBSP && (c in html || (c == ' ' && NBSP in html)) {
      if c in m {
        var i :| 0 <= i < |m| && m[i] == c;
        assert html[i] in html;
      }
      if c != NBSP && c in html {
        var i :| 0 <= i < |html| && html[i] == c;
        assert m[i] == c;
      }
      if c == ' ' && NBSP in html {
        var i :| 0 <= i < |html| && html[i] == NBSP;
        assert m[i] == ' ';
      }
    }
    ReplaceNbspSpec(r);
    DropNewlinesSpec(r);
  }

  // ---------------------------------------------------------------------------
  // Where paragraphs come from
  // ---------------------------------------------------------------------------

  /** p is one of the <p> texts of page id: its extract was fetched, its cleaned HTML
      parsed, and p is among the paragraphs found. */
  ghost predicate ParagraphOfPage(p: string, id: PageId, site: Site)
  {
    exists html, ps :: site.extract(id) == Some(html) && site.paragraphs(CleanExtract(html)) == Some(ps) && p in ps
  }

  /** A batch's paragraphs are exactly the paragraphs of its pages; a page whose fetch
      or parse fails contributes none. */
  lemma {:induction false} BatchParagraphsMembership(ids: seq<PageId>, site: Site, p: string)
    ensures p in BatchParagraphs(ids, site) <==> exists i :: 0 <= i < |ids| && ParagraphOfPage(p, ids[i], site)
    decreases |ids|
  {
    if ids != [] {
      var init := ids[..|ids| - 1];
      var last := ids[|ids| - 1];
      BatchParagraphsMembership(init, site, p);
      assert p in PageParagraphs(last, site) <==> ParagraphOfPage(p, last, site);
      if exists i :: 0 <= i < |ids| && ParagraphOfPage(p, ids[i], site) {
        var i :| 0 <= i < |ids| && ParagraphOfPage(p, ids[i], site);
        if i < |ids| - 1 { assert init[i] == ids[i]; }
      }
      if exists i :: 0 <= i < |init| && ParagraphOfPage(p, init[i], site) {
        var i :| 0 <= i < |init| && ParagraphOfPage(p, init[i], site);
        assert ids[i] == init[i];
      }
    }
  }

  /** A batch's paragraphs come page after page: reading two runs of pages gives the
      paragraphs of the first run, then those of the second. */
  lemma {:induction false} BatchParagraphsAppend(a: seq<PageId>, b: seq<PageId>, site: Site)
    ensures BatchParagraphs(a + b, site) == BatchParagraphs(a, site) + BatchParagraphs(b, site)
    decreases |b|
  {
    if b == [] {
      assert a + b == a;
    } else {
      var b' := b[..|b| - 1];
      assert (a + b)[..|a + b| - 1] == a + b';
      assert (a + b)[|a + b| - 1] == b[|b| - 1];
      BatchParagraphsAppend(a, b', site);
    }
  }

  /** Whatever the permutation, the worker returns as many paragraphs as its pages have,
      and exactly those paragraphs. */
  lemma WorkerMembership(k: nat, ids: seq<PageId>, cfg: Settings, site: Site, p: string)
    requires IsShuffler(site.shuffle)
    ensures multiset(WorkerResult(k, ids, cfg, site)) == multiset(BatchParagraphs(ids, site))
    ensures |WorkerResult(k, ids, cfg, site)| == |BatchParagraphs(ids, site)|
    ensures p in WorkerResult(k, ids, cfg, site) <==> exists i :: 0 <= i < |ids| && ParagraphOfPage(p, ids[i], site)
  {
    var ps := BatchParagraphs(ids, site);
    var w := WorkerResult(k, ids, cfg, site);
    assert multiset(w) == multiset(ps);
    assert |multiset(w)| == |w| && |multiset(ps)| == |ps|;
    assert p in w <==> p in multiset(w);
    assert p in ps <==> p in multiset(ps);
    BatchParagraphsMembership(ids, site, p);
  }

  /** The chain of the first c worker results holds exactly the paragraphs of the pages
      of the first c batches. */
  lemma CollectedProvenance(pages: seq<seq<PageId>>, c: nat, cfg: Settings, site: Site, p: string)
    requires c <= |pages| && IsShuffler(site.shuffle)
    ensures p in Flatten(RoundResults(pages, 0, c, cfg, site)) <==>
              exists b, i :: 0 <= b < c && 0 <= i < |pages[b]| && ParagraphOfPage(p, pages[b][i], site)
  {
    var rs := RoundResults(pages, 0, c, cfg, site);
    FlattenMembership(rs, p);
    if p in Flatten(rs) {
      var b :| 0 <= b < |rs| && p in rs[b];
      WorkerMembership(b, pages[b], cfg, site, p);
      var i :| 0 <= i < |pages[b]| && ParagraphOfPage(p, pages[b][i], site);
    }
    if exists b, i :: 0 <= b < c && 0 <= i < |pages[b]| && ParagraphOfPage(p, pages[b][i], site) {
      var b, i :| 0 <= b < c && 0 <= i < |pages[b]| && ParagraphOfPage(p, pages[b][i], site);
      WorkerMembership(b, pages[b], cfg, site, p);
      assert p in rs[b];
    }
  }

  // ---------------------------------------------------------------------------
  // The round loop
  // ---------------------------------------------------------------------------

  /** The cursor after m rounds started at `cursor`, ignoring the stopping test. */
  function Boundary(cursor: nat, m: nat, nProc: nat, total: nat): nat
  {
    Min(cursor + m * (2 * nProc), total)
  }

  lemma BoundaryShift(cursor: nat, m: nat, nProc: nat, total: nat)
    requires cursor <= total
    ensures Boundary(cursor, m + 1, nProc, total) == Boundary(RoundEnd(cursor, nProc, total), m, nProc, total)
    ensures Boundary(cursor, m + 1, nProc, total) >= RoundEnd(cursor, nProc, total)
  {
    assert (m + 1) * (2 * nProc) == 2 * nProc + m * (2 * nProc);
  }

  /** The paragraph count of a span of batches is the sum over its two halves. */
  lemma RangeTotalSplit(pages: seq<seq<PageId>>, a: nat, b: nat, c: nat, cfg: Settings, site: Site)
    requires a <= b <= c <= |pages|
    ensures RangeTotal(pages, a, c, cfg, site) == RangeTotal(pages, a, b, cfg, site) + RangeTotal(pages, b, c, cfg, site)
  {
    RoundResultsSplit(pages, a, b, c, cfg, site);
    TotalLengthAppend(RoundResults(pages, a, b, cfg, site), RoundResults(pages, b, c, cfg, site));
  }

  /** Every boundary after the first round's start lies at or past that round's end. */
  lemma BoundariesPastFirst(cursor: nat, nProc: nat, total: nat)
    requires cursor <= total
    ensures forall m: nat :: 1 <= m ==> Boundary(cursor, m, nProc, total) >= RoundEnd(cursor, nProc, total)
  {
    forall m: nat | 1 <= m
      ensures Boundary(cursor, m, nProc, total) >= RoundEnd(cursor, nProc, total)
    {
      BoundaryShift(cursor, m - 1, nProc, total);
    }
  }

  /** The counter at the end of the loop has counted every paragraph of the batches
      before the loop's final cursor. */
  lemma {:induction false} RunCounts(size: int, cursor: nat, pages: seq<seq<PageId>>, nProc: nat, fails: bool,
                                     cfg: Settings, site: Site)
    requires 1 <= nProc && cursor <= |pages|
    ensures var r := Run(size, cursor, pages, nProc, fails, cfg, site);
            r.size == size + RangeTotal(pages, cursor, r.cursor, cfg, site)
    decreases |pages| - cursor
  {
    var r := Run(size, cursor, pages, nProc, fails, cfg, site);
    var e := RoundEnd(cursor, nProc, |pages|);
    var s := size + RangeTotal(pages, cursor, e, cfg, site);
    if fails && cursor + 2 * nProc > |pages| {
      assert RoundResults(pages, cursor, cursor, cfg, site) == [];
    } else if s < cfg.maxSize && e != cursor {
      RunCounts(s, e, pages, nProc, fails, cfg, site);
      RangeTotalSplit(pages, cursor, e, r.cursor, cfg, site);
    }
  }

  /** The loop ends at a round boundary: at least one round after its start, or at its
      start when the first round aborts. */
  lemma {:induction false} RunAtBoundary(size: int, cursor: nat, pages: seq<seq<PageId>>, nProc: nat, fails: bool,
                                         cfg: Settings, site: Site)
    requires 1 <= nProc && cursor <= |pages|
    ensures var r := Run(size, cursor, pages, nProc, fails, cfg, site);
            exists m: nat :: (1 <= m || r.end == Aborted) && r.cursor == Boundary(cursor, m, nProc, |pages|)
    decreases |pages| - cursor
  {
    var r := Run(size, cursor, pages, nProc, fails, cfg, site);
    var e := RoundEnd(cursor, nProc, |pages|);
    var s := size + RangeTotal(pages, cursor, e, cfg, site);
    if fails && cursor + 2 * nProc > |pages| {
      assert cursor == Boundary(cursor, 0, nProc, |pages|);
    } else if s >= cfg.maxSize || e == cursor {
      assert r.cursor == e == Boundary(cursor, 1, nProc, |pages|);
    } else {
      RunAtBoundary(s, e, pages, nProc, fails, cfg, site);
      var m': nat :| (1 <= m' || r.end == Aborted) && r.cursor == Boundary(e, m', nProc, |pages|);
      BoundaryShift(cursor, m', nProc, |pages|);
      assert r.cursor == Boundary(cursor, m' + 1, nProc, |pages|);
    }
  }

  /** Boundaries after a round that left the counter short of max_size: a boundary short
      of the bound as seen from the next round's start is short of it from this one. */
  lemma FirstBoundaryStep(size: int, cursor: nat, pages: seq<seq<PageId>>, nProc: nat, cfg: Settings, site: Site,
                          rc: nat)
    requires 1 <= nProc && cursor <= |pages|
    requires RoundEnd(cursor, nProc, |pages|) <= rc <= |pages|
    requires size + RangeTotal(pages, cursor, RoundEnd(cursor, nProc, |pages|), cfg, site) < cfg.maxSize
    requires var e := RoundEnd(cursor, nProc, |pages|);
             var s := size + RangeTotal(pages, cursor, e, cfg, site);
             forall m: nat :: 1 <= m && Boundary(e, m, nProc, |pages|) < rc ==>
               s + RangeTotal(pages, e, Boundary(e, m, nProc, |pages|), cfg, site) < cfg.maxSize
    ensures forall m: nat :: 1 <= m && Boundary(cursor, m, nProc, |pages|) < rc ==>
              size + RangeTotal(pages, cursor, Boundary(cursor, m, nProc, |pages|), cfg, site) < cfg.maxSize
  {
    var e := RoundEnd(cursor, nProc, |pages|);
    forall m: nat | 1 <= m && Boundary(cursor, m, nProc, |pages|) < rc
      ensures size + RangeTotal(pages, cursor, Boundary(cursor, m, nProc, |pages|), cfg, site) < cfg.maxSize
    {
      BoundaryShift(cursor, m - 1, nProc, |pages|);
      if m > 1 {
        var bm := Boundary(cursor, m, nProc, |pages|);
        assert bm == Boundary(e, m - 1, nProc, |pages|) && e <= bm;
        RangeTotalSplit(pages, cursor, e, bm, cfg, site);
      } else {
        assert Boundary(cursor, 1, nProc, |pages|) == e;
      }
    }
  }

  /** At every round boundary the loop passed before its final cursor, the counter was
      still short of max_size. */
  lemma {:induction false} RunFirstBoundary(size: int, cursor: nat, pages: seq<seq<PageId>>, nProc: nat, fails: bool,
                                            cfg: Settings, site: Site)
    requires 1 <= nProc && cursor <= |pages|
    ensures var r := Run(size, cursor, pages, nProc, fails, cfg, site);
            forall m: nat :: 1 <= m && Boundary(cursor, m, nProc, |pages|) < r.cursor ==>
              size + RangeTotal(pages, cursor, Boundary(cursor, m, nProc, |pages|), cfg, site) < cfg.maxSize
    decreases |pages| - cursor
  {
    var r := Run(size, cursor, pages, nProc, fails, cfg, site);
    var e := RoundEnd(cursor, nProc, |pages|);
    var s := size + RangeTotal(pages, cursor, e, cfg, site);
    if fails && cursor + 2 * nProc > |pages| {
      assert r.cursor == cursor;
    } else if s >= cfg.maxSize || e == cursor {
      BoundariesPastFirst(cursor, nProc, |pages|);
    } else {
      RunFirstBoundary(s, e, pages, nProc, fails, cfg, site);
      FirstBoundaryStep(size, cursor, pages, nProc, cfg, site, r.cursor);
    }
  }

  /** A run that aborts after finishing some rounds does so with the counter short of
      max_size. */
  lemma {:induction false} RunAbortShort(size: int, cursor: nat, pages: seq<seq<PageId>>, nProc: nat, fails: bool,
                                         cfg: Settings, site: Site)
    requires 1 <= nProc && cursor <= |pages|
    ensures var r := Run(size, cursor, pages, nProc, fails, cfg, site);
            r.end == Aborted && cursor < r.cursor ==> r.size < cfg.maxSize
    decreases |pages| - cursor
  {
    var e := RoundEnd(cursor, nProc, |pages|);
    var s := size + RangeTotal(pages, cursor, e, cfg, site);
    if !(fails && cursor + 2 * nProc > |pages|) && s < cfg.maxSize && e != cursor {
      RunAbortShort(s, e, pages, nProc, fails, cfg, site);
    }
  }

  /** The round loop ends at a round boundary, having counted every paragraph of the
      batches before it, and it ends at the first boundary where the counter reached
      max_size: at every earlier boundary the counter was still short of it. A run that
      aborts stops at the start of the failing round, which is a later round's start
      only when the counter was short of max_size there. */
  lemma RunFacts(size: int, cursor: nat, pages: seq<seq<PageId>>, nProc: nat, fails: bool,
                 cfg: Settings, site: Site)
    requires 1 <= nProc && cursor <= |pages|
    ensures var r := Run(size, cursor, pages, nProc, fails, cfg, site);
            r.size == size + RangeTotal(pages, cursor, r.cursor, cfg, site)
            && (exists m: nat :: (1 <= m || r.end == Aborted) && r.cursor == Boundary(cursor, m, nProc, |pages|))
            && (forall m: nat :: 1 <= m && Boundary(cursor, m, nProc, |pages|) < r.cursor ==>
                  size + RangeTotal(pages, cursor, Boundary(cursor, m, nProc, |pages|), cfg, site) < cfg.maxSize)
            && (r.end == Aborted && cursor < r.cursor ==> r.size < cfg.maxSize)
  {
    RunCounts(size, cursor, pages, nProc, fails, cfg, site);
    RunAtBoundary(size, cursor, pages, nProc, fails, cfg, site);
    RunFirstBoundary(size, cursor, pages, nProc, fails, cfg, site);
    RunAbortShort(size, cursor, pages, nProc, fails, cfg, site);
  }

  /** The loop spins forever exactly when the index ends normally and holds too few
      paragraphs to bring the counter to max_size. */
  lemma SpinsIff(size: int, cursor: nat, pages: seq<seq<PageId>>, nProc: nat, fails: bool, cfg: Settings, site: Site)
    requires 1 <= nProc && cursor <= |pages|
    ensures Run(size, cursor, pages, nProc, fails, cfg, site).end == Spins <==>
              !fails && size + RangeTotal(pages, cursor, |pages|, cfg, site) < cfg.maxSize
  {
    var r := Run(size, cursor, pages, nProc, fails, cfg, site);
    RunFacts(size, cursor, pages, nProc, fails, cfg, site);
    RangeTotalSplit(pages, cursor, r.cursor, |pages|, cfg, site);
  }

  /** The start of the round that has to ask the index past its last batch. */
  function LastRoundStart(cursor: nat, nProc: nat, total: nat): (l: nat)
    requires 1 <= nProc && cursor <= total
    ensures cursor <= l <= total && total < l + 2 * nProc
    decreases total - cursor
  {
    if cursor + 2 * nProc > total then cursor else LastRoundStart(cursor + 2 * nProc, nProc, total)
  }

  /** Over an index that raises instead of ending, collect_data raises exactly when the
      loop gets to the round that reads past the last batch: that round is the first,
      or the counter before it is still short of max_size. It then stops there. */
  lemma {:induction false} AbortsIff(size: int, cursor: nat, pages: seq<seq<PageId>>, nProc: nat, cfg: Settings, site: Site)
    requires 1 <= nProc && cursor <= |pages|
    ensures var r := Run(size, cursor, pages, nProc, true, cfg, site);
            var l := LastRoundStart(cursor, nProc, |pages|);
            (r.end == Aborted <==> l == cursor || size + RangeTotal(pages, cursor, l, cfg, site) < cfg.maxSize)
            && (r.end == Aborted ==> r.cursor == l)
    decreases |pages| - cursor
  {
    if cursor + 2 * nProc <= |pages| {
      var e := cursor + 2 * nProc;
      var s := size + RangeTotal(pages, cursor, e, cfg, site);
      var l := LastRoundStart(e, nProc, |pages|);
      assert LastRoundStart(cursor, nProc, |pages|) == l;
      RangeTotalSplit(pages, cursor, e, l, cfg, site);
      if s < cfg.maxSize {
        AbortsIff(s, e, pages, nProc, cfg, site);
        if l == e {
          assert RoundResults(pages, e, e, cfg, site) == [];
        }
      }
    }
  }

  /** With max_size at most 0 (no limit) and a non-negative counter, the loop stops after
      one round: at most 2 * n_proc batches are read, unless that round reads past the
      end of an index that then raises. */
  lemma UnboundedOneRound(size: int, cursor: nat, pages: seq<seq<PageId>>, nProc: nat, fails: bool,
                          cfg: Settings, site: Site)
    requires 1 <= nProc && cursor <= |pages| && cfg.maxSize <= 0 && size >= 0
    ensures Run(size, cursor, pages, nProc, fails, cfg, site)
            == if fails && cursor + 2 * nProc > |pages| then RunEnd(size, cursor, Aborted)
               else RunEnd(size + RangeTotal(pages, cursor, RoundEnd(cursor, nProc, |pages|), cfg, site),
                           RoundEnd(cursor, nProc, |pages|), Done)
  {
  }

  /** The chain the rounds build is as long as the amount the counter grew by. */
  lemma CollectedChainLength(size: int, pages: seq<seq<PageId>>, nProc: nat, fails: bool, cfg: Settings, site: Site)
    requires 1 <= nProc
    ensures var r := Run(size, 0, pages, nProc, fails, cfg, site);
            |Flatten(RoundResults(pages, 0, r.cursor, cfg, site))| == r.size - size
  {
    var r := Run(size, 0, pages, nProc, fails, cfg, site);
    RunFacts(size, 0, pages, nProc, fails, cfg, site);
    FlattenLength(RoundResults(pages, 0, r.cursor, cfg, site));
  }

  /** After a bounded collection that ends normally, the generator holds max_size
      paragraphs when the counter started at 0 (the counter reached max_size), and size
      is max_size. */
  lemma BoundedCollectionFills(pages: seq<seq<PageId>>, nProc: nat, fails: bool, cfg: Settings, site: Site)
    requires 1 <= nProc && cfg.maxSize > 0
    requires Run(0, 0, pages, nProc, fails, cfg, site).end == Done
    ensures var r := Run(0, 0, pages, nProc, fails, cfg, site);
            var units := Flatten(RoundResults(pages, 0, r.cursor, cfg, site));
            |units[..Min(cfg.maxSize, |units|)]| == cfg.maxSize
  {
    CollectedChainLength(0, pages, nProc, fails, cfg, site);
  }

  // ---------------------------------------------------------------------------
  // Records
  // ---------------------------------------------------------------------------

  /** A record with the length column splits at its first tab into the numeral of the
      paragraph's length and the paragraph with its newline, whatever tabs the paragraph
      itself holds. */
  lemma ParagraphLineReadBack(p: string)
    ensures SplitAtFirstTab(ParagraphLine(p, true)) == Some((Decimal(|p|), p + "\n"))
    ensures ReadDecimal(Decimal(|p|)) == |p|
  {
    var d := Decimal(|p|);
    DecimalRoundTrip(|p|);
    assert '\t' !in d by {
      assert !IsDigit('\t');
    }
    SplitAtFirstTabOfPrefixed(d, p + "\n");
    calc {
      ParagraphLine(p, true);
      (d + "\t") + p + "\n";
      { assert (d + "\t") + p + "\n" == d + "\t" + (p + "\n"); }
      d + "\t" + (p + "\n");
    }
  }

  /** Without the length column a record is the paragraph and a newline. */
  lemma ParagraphLinePlain(p: string)
    ensures ParagraphLine(p, false) == p + "\n"
  {
    assert [] + p == p;
  }
}
