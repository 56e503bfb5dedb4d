/** The article-index client of utils.py: one request for a batch of page titles
    through the MediaWiki "allpages" list, and a walk over the index that hands
    each reply's continuation cursor to the next request.

    The HTTP session and JSON decoding are a parameter: a server maps a request
    to the decoded reply, or to None when the transfer or the decoding raises.
    A reply is reduced to the two fields the client reads, each None when its
    key is missing. */
module ArticleIndex {
  import opened Common

  /** The query parameters of one request. */
  datatype Params = Params(action: string, format: string, list: string, apfrom: string, aplimit: int)

  datatype Request = Request(url: string, params: Params)

  /** One entry of the reply's allpages list. */
  datatype PageEntry = PageEntry(pageid: int, title: string)

  /** reply["query"]["allpages"] and reply["continue"]["apcontinue"], each None when
      a key on its path is missing. */
  datatype Reply = Reply(allpages: Option<seq<PageEntry>>, apcontinue: Option<string>)

  datatype Error =
    | InvalidBatchSize   // ValueError: batch_size outside 1..500
    | TransportError     // session.get or r.json() raised
    | MissingPages       // KeyError on reply["query"]["allpages"]
    | MissingContinue    // KeyError on reply["continue"]["apcontinue"]

  datatype Result<T> = Ok(value: T) | Err(error: Error)

  const MinBatchSize: int := 1
  const MaxBatchSize: int := 500

  predicate ValidBatchSize(batchSize: int)
  {
    MinBatchSize <= batchSize <= MaxBatchSize
  }

  /** The API endpoint of a language edition. */
  function ApiUrl(lang: string): string
  {
    "https://" + lang + ".wikipedia.org/w/api.php"
  }

  function BatchRequest(lang: string, apfrom: string, batchSize: int): (req: Request)
    ensures req.url == ApiUrl(lang)
    ensures req.params.action == "query" && req.params.format == "json" && req.params.list == "allpages"
    ensures req.params.apfrom == apfrom && req.params.aplimit == batchSize
  {
    Request(ApiUrl(lang), Params("query", "json", "allpages", apfrom, batchSize))
  }

  /** The requests a call sent, in order, and what it returned. */
  datatype Exchange = Exchange(sent: seq<Request>, result: Result<(seq<PageEntry>, string)>)

  /** get_articles_batch: a batch size outside 1..500 fails before anything is sent;
      otherwise exactly one request goes out, for `batchSize` titles from `apfrom` on,
      and the call returns the reply's page list with its continuation cursor. */
  function GetArticlesBatch(server: Request -> Option<Reply>, lang: string, apfrom: string, batchSize: int): (x: Exchange)
    ensures !ValidBatchSize(batchSize) <==> x.result == Err(InvalidBatchSize)
    ensures !ValidBatchSize(batchSize) ==> x.sent == []
    ensures ValidBatchSize(batchSize) ==>
              |x.sent| == 1 && x.sent[0].url == ApiUrl(lang)
              && x.sent[0].params == Params("query", "json", "allpages", apfrom, batchSize)
    ensures x.result.Ok? <==>
              ValidBatchSize(batchSize) && server(x.sent[0]).Some?
              && server(x.sent[0]).value.allpages.Some? && server(x.sent[0]).value.apcontinue.Some?
    ensures x.result.Ok? ==>
              x.result.value == (server(x.sent[0]).value.allpages.value, server(x.sent[0]).value.apcontinue.value)
    // the error names the step that failed; a missing page list is reported before a
    // missing cursor, as the page list is read first
    ensures ValidBatchSize(batchSize) && server(x.sent[0]).None? ==> x.result == Err(TransportError)
    ensures ValidBatchSize(batchSize) && server(x.sent[0]).Some? && server(x.sent[0]).value.allpages.None? ==>
              x.result == Err(MissingPages)
    ensures ValidBatchSize(batchSize) && server(x.sent[0]).Some? && server(x.sent[0]).value.allpages.Some?
              && server(x.sent[0]).value.apcontinue.None? ==>
              x.result == Err(MissingContinue)
  {
    if !ValidBatchSize(batchSize) then Exchange([], Err(InvalidBatchSize))
    else
      var req := BatchRequest(lang, apfrom, batchSize);
      var res :=
        match server(req)
        case None => Err(TransportError)
        case Some(reply) =>
          if reply.allpages.None? then Err(MissingPages)
          else if reply.apcontinue.None? then Err(MissingContinue)
          else Ok((reply.allpages.value, reply.apcontinue.value));
      Exchange([req], res)
  }

  /** The limits of the range are inclusive: 1 and 500 pass the check, 0 and 501 fail
      it without a request. */
  lemma BatchSizeLimits(server: Request -> Option<Reply>, lang: string, apfrom: string)
    ensures GetArticlesBatch(server, lang, apfrom, 1).sent == [BatchRequest(lang, apfrom, 1)]
    ensures GetArticlesBatch(server, lang, apfrom, 500).sent == [BatchRequest(lang, apfrom, 500)]
    ensures GetArticlesBatch(server, lang, apfrom, 0) == Exchange([], Err(InvalidBatchSize))
    ensures GetArticlesBatch(server, lang, apfrom, 501) == Exchange([], Err(InvalidBatchSize))
  {
  }

  // ---------------------------------------------------------------------------
  // articles_batch_generator
  // ---------------------------------------------------------------------------

  /** What a walk of the index produced: the batches yielded, the requests sent, and the
      error that ended it early, if any. */
  datatype Walk = Walk(batches: seq<seq<PageEntry>>, sent: seq<Request>, err: Option<Error>)

  /** The walk of `count` batches starting at `cursor`, as a specification. */
  function BatchWalk(server: Request -> Option<Reply>, lang: string, cursor: string, count: int, batchSize: int): Walk
    decreases count
  {
    if count <= 0 then Walk([], [], None)
    else
      var x := GetArticlesBatch(server, lang, cursor, batchSize);
      match x.result
      case Err(e) => Walk([], x.sent, Some(e))
      case Ok(r) =>
        var w := BatchWalk(server, lang, r.1, count - 1, batchSize);
        Walk([r.0] + w.batches, x.sent + w.sent, w.err)
  }

  /** articles_batch_generator, consumed to the end: call get_articles_batch
      `batchesCount` times, from the empty cursor, each time from the cursor the
      previous reply returned. */
  method ArticlesBatchGenerator(server: Request -> Option<Reply>, lang: string, batchesCount: int, batchSize: int)
    returns (batches: seq<seq<PageEntry>>, sent: seq<Request>, err: Option<Error>)
    ensures Walk(batches, sent, err) == BatchWalk(server, lang, "", batchesCount, batchSize)
  {
    batches, sent, err := [], [], None;
    var nextArticle := "";
    var i := 0;
    while i < batchesCount
      invariant BatchWalk(server, lang, "", batchesCount, batchSize)
             == var rest := BatchWalk(server, lang, nextArticle, batchesCount - i, batchSize);
                Walk(batches + rest.batches, sent + rest.sent, rest.err)
      decreases batchesCount - i
    {
      var x := GetArticlesBatch(server, lang, nextArticle, batchSize);
      sent := sent + x.sent;
      if x.result.Err? {
        err := Some(x.result.error);
        return;
      }
      var batch := x.result.value.0;
      nextArticle := x.result.value.1;
      batches := batches + [batch];
      i := i + 1;
    }
  }

  // ---------------------------------------------------------------------------
  // Lemmas about the walk
  // ---------------------------------------------------------------------------

  /** A walk that meets no error yields exactly `count` batches (none for a count
      below 1); one that does yields fewer. With a valid batch size every call sends
      one request; with an invalid one nothing is sent, and the walk fails at its first
      call, unless it makes no call at all. */
  lemma {:induction false} WalkCount(server: Request -> Option<Reply>, lang: string, cursor: string, count: int, batchSize: int)
    ensures var w := BatchWalk(server, lang, cursor, count, batchSize);
            (w.err.None? ==> |w.batches| == (if count > 0 then count else 0))
            && (w.err.Some? ==> |w.batches| < count)
            && (ValidBatchSize(batchSize) ==> |w.sent| == |w.batches| + (if w.err.Some? then 1 else 0))
            && (!ValidBatchSize(batchSize) ==>
                  w.sent == [] && w.batches == [] && w.err == (if count > 0 then Some(InvalidBatchSize) else None))
    decreases count
  {
    if count > 0 {
      var x := GetArticlesBatch(server, lang, cursor, batchSize);
      if x.result.Ok? {
        WalkCount(server, lang, x.result.value.1, count - 1, batchSize);
      }
    }
  }

  /** Every request of a walk is an allpages request for `batchSize` titles to the
      language's endpoint, and the first one starts from the walk's cursor. */
  lemma {:induction false} WalkRequests(server: Request -> Option<Reply>, lang: string, cursor: string, count: int, batchSize: int)
    ensures var w := BatchWalk(server, lang, cursor, count, batchSize);
            (forall i :: 0 <= i < |w.sent| ==> w.sent[i] == BatchRequest(lang, w.sent[i].params.apfrom, batchSize))
            && (|w.sent| > 0 ==> w.sent[0].params.apfrom == cursor)
    decreases count
  {
    if count > 0 {
      var x := GetArticlesBatch(server, lang, cursor, batchSize);
      if x.result.Ok? {
        var w := BatchWalk(server, lang, x.result.value.1, count - 1, batchSize);
        WalkRequests(server, lang, x.result.value.1, count - 1, batchSize);
        var all := x.sent + w.sent;
        forall i | 0 <= i < |all| ensures all[i] == BatchRequest(lang, all[i].params.apfrom, batchSize) {
          if i > 0 { assert all[i] == w.sent[i - 1]; }
        }
      }
    }
  }

  /** Cursor threading: the i-th batch is the page list of the reply to the i-th
      request, and the next request starts from that reply's continuation cursor. */
  lemma {:induction false} WalkThreading(server: Request -> Option<Reply>, lang: string, cursor: string, count: int, batchSize: int)
    ensures var w := BatchWalk(server, lang, cursor, count, batchSize);
            |w.batches| <= |w.sent|
            && (forall i :: 0 <= i < |w.batches| ==>
                  server(w.sent[i]).Some? && server(w.sent[i]).value.allpages == Some(w.batches[i])
                  && server(w.sent[i]).value.apcontinue.Some?)
            && (forall i :: 0 <= i < |w.batches| && i + 1 < |w.sent| ==>
                  w.sent[i + 1].params.apfrom == server(w.sent[i]).value.apcontinue.value)
    decreases count
  {
    if count > 0 {
      var x := GetArticlesBatch(server, lang, cursor, batchSize);
      if x.result.Ok? {
        var next := x.result.value.1;
        var w := BatchWalk(server, lang, next, count - 1, batchSize);
        WalkThreading(server, lang, next, count - 1, batchSize);
        WalkRequests(server, lang, next, count - 1, batchSize);
        var bs := [x.result.value.0] + w.batches;
        var all := x.sent + w.sent;
        assert BatchWalk(server, lang, cursor, count, batchSize) == Walk(bs, all, w.err);
        forall i | 0 <= i < |bs|
          ensures server(all[i]).Some? && server(all[i]).value.allpages == Some(bs[i])
                  && server(all[i]).value.apcontinue.Some?
        {
          if i > 0 { assert all[i] == w.sent[i - 1] && bs[i] == w.batches[i - 1]; }
        }
        forall i | 0 <= i < |bs| && i + 1 < |all|
          ensures all[i + 1].params.apfrom == server(all[i]).value.apcontinue.value
        {
          if i > 0 { assert all[i + 1] == w.sent[i] && all[i] == w.sent[i - 1]; }
        }
      }
    }
  }

  /** The generator's first request asks for titles from the start of the index. */
  lemma FirstRequestFromStart(server: Request -> Option<Reply>, lang: string, count: int, batchSize: int)
    requires count >= 1 && ValidBatchSize(batchSize)
    ensures var w := BatchWalk(server, lang, "", count, batchSize);
            |w.sent| >= 1 && w.sent[0] == BatchRequest(lang, "", batchSize)
  {
    WalkRequests(server, lang, "", count, batchSize);
    WalkCount(server, lang, "", count, batchSize);
  }
}
