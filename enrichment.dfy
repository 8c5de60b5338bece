/**
 * The two-pass enrichment of `main.py`: which catalogue rows are scraped, the
 * first pass that settles a row or queues it for a retry, and the retry pass.
 * The scraper is an oracle: `scrape(k, asin)` is the reply to the k-th call of
 * the run (counting from 0), so a second call for the same ASIN may answer
 * differently from the first.
 */
module Enrichment {
  import opened Wrappers
  import opened Dicts
  import opened Amazon
  import opened Baserow

  const AsinColumn := "Marketplace ASIN/Product ID"

  // Keys and labels of the updates the passes produce.
  const KeyId := "id"
  const KeyListingStatus := "Listing Status"
  const KeyEnrichmentStatus := "Enrichment Status"
  const Deleted := "Deleted"
  const LabelSuccess := "Success"
  const LabelRetrySuccess := "Success (on retry)"
  const LabelNotFound := "ASIN Not Found"
  const LabelFailed := "Scrape Failed"

  /** The scraper as the passes see it: the reply to the k-th call, for an ASIN cell. */
  type Scraper = (nat, Value) -> Reply

  /** A catalogue row picked for scraping: its Baserow id and its ASIN cell. */
  datatype Target = Target(id: int, asin: Value)

  /** The row has a non-null ASIN cell (pandas `notna`; a missing key reads as NaN). */
  predicate HasAsin(r: Row)
  {
    AsinColumn in r.cells && r.cells[AsinColumn] != Null
  }

  /** The rows with a non-null ASIN, in table order. */
  function WithAsin(rows: seq<Row>): (t: seq<Target>)
    ensures |t| <= |rows|
    ensures forall k :: 0 <= k < |t| ==> t[k].asin != Null
    ensures forall k :: 0 <= k < |rows| && HasAsin(rows[k]) ==> Target(rows[k].id, rows[k].cells[AsinColumn]) in t
    ensures forall x :: x in t ==> exists k :: 0 <= k < |rows| && HasAsin(rows[k]) && x == Target(rows[k].id, rows[k].cells[AsinColumn])
  {
    if rows == [] then []
    else
      var rest := WithAsin(rows[1..]);
      assert forall k :: 1 <= k < |rows| ==> rows[k] == rows[1..][k - 1];
      if HasAsin(rows[0]) then [Target(rows[0].id, rows[0].cells[AsinColumn])] + rest else rest
  }

  /** Picking over two stretches of the table picks over each in turn: table order is kept. */
  lemma {:induction false} WithAsinAppend(a: seq<Row>, b: seq<Row>)
    ensures WithAsin(a + b) == WithAsin(a) + WithAsin(b)
  {
    if a == [] {
      assert a + b == b;
    } else {
      assert (a + b)[0] == a[0];
      assert (a + b)[1..] == a[1..] + b;
      WithAsinAppend(a[1..], b);
    }
  }

  /** One row yields its own target when its ASIN is not null, and nothing otherwise. */
  lemma WithAsinOne(r: Row)
    ensures WithAsin([r]) == if HasAsin(r) then [Target(r.id, r.cells[AsinColumn])] else []
  {
    assert [r][1..] == [];
  }

  /** Some row has the ASIN column; otherwise the table has no such column and selecting raises. */
  predicate HasAsinColumn(rows: seq<Row>)
  {
    exists k :: 0 <= k < |rows| && AsinColumn in rows[k].cells
  }

  /**
   * The rows to scrape: those with a non-null ASIN, cut to the first `limit`
   * of them when `limit` is positive.
   */
  function Select(rows: seq<Row>, limit: int): (t: seq<Target>)
    ensures |t| <= |WithAsin(rows)| && t == WithAsin(rows)[..|t|]
    ensures |t| == if 0 < limit < |WithAsin(rows)| then limit else |WithAsin(rows)|
  {
    var all := WithAsin(rows);
    if 0 < limit < |all| then all[..limit] else all
  }

  /**
   * A positive limit keeps the rows with an ASIN from the shortest stretch
   * at the start of the table that holds `limit` of them.
   */
  lemma SelectUpTo(a: seq<Row>, b: seq<Row>, limit: int)
    requires 0 < limit == |WithAsin(a)|
    ensures Select(a + b, limit) == WithAsin(a)
  {
    WithAsinAppend(a, b);
    assert WithAsin(a + b)[..limit] == WithAsin(a);
  }

  /** The update recorded for a row whose ASIN leads to a missing page. */
  function NotFoundUpdate(id: int): Dict
  {
    map[KeyId := Int(id), KeyListingStatus := Text(Deleted), KeyEnrichmentStatus := Text(LabelNotFound)]
  }

  /** The update recorded for a row whose retry failed too. */
  function FailedUpdate(id: int): Dict
  {
    map[KeyId := Int(id), KeyEnrichmentStatus := Text(LabelFailed)]
  }

  /** The reply is the scrape of a missing page. */
  predicate ReportsNotFound(reply: Reply)
  {
    reply.Returned? && reply.scrape.PageNotFound?
  }

  /** The reply is the scrape of a found page with a non-empty title. */
  predicate ReportsTitle(reply: Reply)
  {
    reply.Returned? && reply.scrape.PageFound? && reply.scrape.product.title.Some?
    && reply.scrape.product.title.value != ""
  }

  /**
   * The checks `main` makes on the scraped dictionary, `page_status ==
   * 'not_found'` and a truthy Title, say exactly that; and a found page's
   * dictionary has neither an Enrichment Status nor a Listing Status.
   */
  lemma ReplyMeaning(reply: Reply)
    requires reply.Returned?
    ensures Get(ScrapeDict(reply.scrape), KeyPageStatus) == Text("not_found") <==> ReportsNotFound(reply)
    ensures Truthy(Get(ScrapeDict(reply.scrape), KeyTitle)) <==> ReportsTitle(reply)
    ensures reply.scrape.PageFound? ==>
              KeyEnrichmentStatus !in ScrapeDict(reply.scrape) && KeyListingStatus !in ScrapeDict(reply.scrape)
  {
  }

  /** A first attempt settles the row unless it raised or found a page without a title. */
  predicate Settles(reply: Reply)
  {
    ReportsNotFound(reply) || ReportsTitle(reply)
  }

  /** The pass-1 update of a settled row. */
  function FirstUpdate(t: Target, reply: Reply): Dict
    requires Settles(reply)
  {
    if ReportsNotFound(reply) then NotFoundUpdate(t.id)
    else ScrapeDict(reply.scrape)[KeyId := Int(t.id)]
  }

  /** The pass-2 update of a queued row. */
  function RetryUpdate(t: Target, reply: Reply): Dict
  {
    if ReportsNotFound(reply) then NotFoundUpdate(t.id)
    else if ReportsTitle(reply) then
      ScrapeDict(reply.scrape)[KeyId := Int(t.id)][KeyEnrichmentStatus := Text(LabelRetrySuccess)]
    else FailedUpdate(t.id)
  }

  /** Pass 1 over `targets`, the k-th target scraped by call k: the updates and the retry queue. */
  function Pass1(targets: seq<Target>, scrape: Scraper): (seq<Dict>, seq<Target>)
    decreases |targets|
  {
    if targets == [] then ([], [])
    else
      var n := |targets| - 1;
      var (updates, retry) := Pass1(targets[..n], scrape);
      var reply := scrape(n, targets[n].asin);
      if Settles(reply) then (updates + [FirstUpdate(targets[n], reply)], retry)
      else (updates, retry + [targets[n]])
  }

  /** Pass 2 over the retry queue, the k-th queued row scraped by call `base + k`. */
  function Pass2(retry: seq<Target>, scrape: Scraper, base: nat): seq<Dict>
    decreases |retry|
  {
    if retry == [] then []
    else
      var m := |retry| - 1;
      Pass2(retry[..m], scrape, base) + [RetryUpdate(retry[m], scrape(base + m, retry[m].asin))]
  }

  /** All updates of a run: pass-1 updates in row order, then pass-2 updates in queue order. */
  function Updates(targets: seq<Target>, scrape: Scraper): seq<Dict>
  {
    var (updates, retry) := Pass1(targets, scrape);
    updates + Pass2(retry, scrape, |targets|)
  }

  /** Pass 1 over one more row whose first attempt settles it: one more update, same queue. */
  lemma {:induction false} Pass1Settled(targets: seq<Target>, scrape: Scraper, n: nat)
    requires n < |targets| && Settles(scrape(n, targets[n].asin))
    ensures Pass1(targets[..n + 1], scrape).0
            == Pass1(targets[..n], scrape).0 + [FirstUpdate(targets[n], scrape(n, targets[n].asin))]
    ensures Pass1(targets[..n + 1], scrape).1 == Pass1(targets[..n], scrape).1
  {
    assert targets[..n + 1][..n] == targets[..n];
  }

  /** Pass 1 over one more row whose first attempt does not settle it: same updates, the row queued. */
  lemma {:induction false} Pass1Queued(targets: seq<Target>, scrape: Scraper, n: nat)
    requires n < |targets| && !Settles(scrape(n, targets[n].asin))
    ensures Pass1(targets[..n + 1], scrape).0 == Pass1(targets[..n], scrape).0
    ensures Pass1(targets[..n + 1], scrape).1 == Pass1(targets[..n], scrape).1 + [targets[n]]
  {
    assert targets[..n + 1][..n] == targets[..n];
  }

  /** Pass 2 over one more queued row appends that row's update. */
  lemma {:induction false} Pass2Snoc(retry: seq<Target>, scrape: Scraper, base: nat, m: nat)
    requires m < |retry|
    ensures Pass2(retry[..m + 1], scrape, base)
            == Pass2(retry[..m], scrape, base) + [RetryUpdate(retry[m], scrape(base + m, retry[m].asin))]
  {
    assert retry[..m + 1][..m] == retry[..m];
  }

  /** The scraper that gives back recorded replies, call by call; a call past the record raises. */
  function Replayed(replies: seq<Reply>): Scraper
  {
    (k: nat, asin: Value) => if k < |replies| then replies[k] else Raised
  }

  /**
   * The browser, as what its successive navigations show: navigation k shows
   * `browser[k]`, where None means loading the page raised; a navigation past
   * the end of the record raises too.
   */
  function Shown(browser: seq<Option<Page>>, k: nat): (page: Option<Page>)
    ensures page.Some? ==> k < |browser| && browser[k] == page
  {
    if k < |browser| then browser[k] else None
  }

  /**
   * `reply` is what `scrape_product(asin)` of a scraper with a running browser
   * and product URLs `baseUrl + asin` may return when the browser shows `page`
   * (None: navigating there raised).
   */
  ghost predicate Answers(baseUrl: string, reply: Reply, asin: Value, page: Option<Page>)
  {
    && (reply == Raised <==> !asin.Text? || page.None?)
    && (reply.Returned? ==> Describes(reply.scrape, asin.s, baseUrl, page.value))
  }

  /** Pass 1 only looks at the replies to its own calls. */
  lemma {:induction false} Pass1Replay(targets: seq<Target>, r1: seq<Reply>, r2: seq<Reply>)
    requires |targets| <= |r1| <= |r2| && r2[..|r1|] == r1
    ensures Pass1(targets, Replayed(r1)) == Pass1(targets, Replayed(r2))
    decreases |targets|
  {
    if targets != [] {
      var n := |targets| - 1;
      Pass1Replay(targets[..n], r1, r2);
      assert r2[n] == r1[n];
      assert Replayed(r1)(n, targets[n].asin) == Replayed(r2)(n, targets[n].asin);
    }
  }

  /** Pass 2 only looks at the replies to its own calls. */
  lemma {:induction false} Pass2Replay(retry: seq<Target>, r1: seq<Reply>, r2: seq<Reply>, base: nat)
    requires base + |retry| <= |r1| <= |r2| && r2[..|r1|] == r1
    ensures Pass2(retry, Replayed(r1), base) == Pass2(retry, Replayed(r2), base)
    decreases |retry|
  {
    if retry != [] {
      var m := |retry| - 1;
      Pass2Replay(retry[..m], r1, r2, base);
      assert r2[base + m] == r1[base + m];
      assert Replayed(r1)(base + m, retry[m].asin) == Replayed(r2)(base + m, retry[m].asin);
    }
  }

  /**
   * Pass 1 of `main`: one `scrape_product` call per row, in order (the page the
   * browser shows on call k is `Shown(browser, k)`); a missing page or a titled
   * page gives an update, a raise or a missing title queues the row.
   */
  method FirstPass(scraper: AmazonScraper, targets: seq<Target>, browser: seq<Option<Page>>, escapeAt: Option<nat>)
    returns (updates: seq<Dict>, retry: seq<Target>, replies: seq<Reply>)
    requires scraper.hasDriver
    ensures |replies| == if escapeAt.Some? && escapeAt.value < |targets| then escapeAt.value else |targets|
    ensures forall k :: 0 <= k < |replies| ==> Answers(scraper.baseUrl, replies[k], targets[k].asin, Shown(browser, k))
    ensures updates == Pass1(targets[..|replies|], Replayed(replies)).0
    ensures retry == Pass1(targets[..|replies|], Replayed(replies)).1
  {
    updates, retry, replies := [], [], [];
    while |replies| < |targets| && (escapeAt.None? || |replies| < escapeAt.value)
      invariant |replies| <= |targets|
      invariant escapeAt.None? || |replies| <= escapeAt.value
      invariant forall k :: 0 <= k < |replies| ==> Answers(scraper.baseUrl, replies[k], targets[k].asin, Shown(browser, k))
      invariant updates == Pass1(targets[..|replies|], Replayed(replies)).0
      invariant retry == Pass1(targets[..|replies|], Replayed(replies)).1
      decreases |targets| - |replies|
    {
      updates, retry, replies := FirstNext(scraper, targets, browser, updates, retry, replies);
    }
  }

  /** One iteration of pass 1: the next row is scraped, then settled by an update or queued for a retry. */
  method FirstNext(scraper: AmazonScraper, targets: seq<Target>, browser: seq<Option<Page>>,
                   updates: seq<Dict>, retry: seq<Target>, replies: seq<Reply>)
    returns (updates': seq<Dict>, retry': seq<Target>, replies': seq<Reply>)
    requires scraper.hasDriver && |replies| < |targets|
    requires forall k :: 0 <= k < |replies| ==> Answers(scraper.baseUrl, replies[k], targets[k].asin, Shown(browser, k))
    requires updates == Pass1(targets[..|replies|], Replayed(replies)).0
    requires retry == Pass1(targets[..|replies|], Replayed(replies)).1
    ensures |replies'| == |replies| + 1
    ensures forall k :: 0 <= k < |replies'| ==> Answers(scraper.baseUrl, replies'[k], targets[k].asin, Shown(browser, k))
    ensures updates' == Pass1(targets[..|replies'|], Replayed(replies')).0
    ensures retry' == Pass1(targets[..|replies'|], Replayed(replies')).1
  {
    var i := |replies|;
    var t := targets[i];
    var page := Shown(browser, i);
    var settled, u, reply := FirstOnce(scraper, t, page);
    replies' := replies + [reply];
    AnswersSnoc(scraper.baseUrl, targets, browser, 0, replies, reply, page);
    FirstStep(targets, replies, reply);
    if settled {
      updates', retry' := updates + [u], retry;
    } else {
      updates', retry' := updates, retry + [t];
    }
  }

  /** One more pass-1 call: a settling reply appends its update, any other reply queues the row. */
  lemma {:induction false} FirstStep(targets: seq<Target>, replies: seq<Reply>, reply: Reply)
    requires |replies| < |targets|
    ensures var n := |replies|;
            var before := Pass1(targets[..n], Replayed(replies));
            var after := Pass1(targets[..n + 1], Replayed(replies + [reply]));
            && (Settles(reply) ==> after.0 == before.0 + [FirstUpdate(targets[n], reply)] && after.1 == before.1)
            && (!Settles(reply) ==> after.0 == before.0 && after.1 == before.1 + [targets[n]])
  {
    var n := |replies|;
    var replies' := replies + [reply];
    Pass1Replay(targets[..n], replies, replies');
    assert Replayed(replies')(n, targets[n].asin) == reply;
    if Settles(reply) {
      Pass1Settled(targets, Replayed(replies'), n);
    } else {
      Pass1Queued(targets, Replayed(replies'), n);
    }
  }

  /**
   * One pass-1 call for row `t`: a missing page or a titled page settles the
   * row with its update; a raise or a page without a title does not.
   */
  method FirstOnce(scraper: AmazonScraper, t: Target, page: Option<Page>) returns (settled: bool, u: Dict, reply: Reply)
    requires scraper.hasDriver
    ensures Answers(scraper.baseUrl, reply, t.asin, page)
    ensures settled == Settles(reply)
    ensures settled ==> u == FirstUpdate(t, reply)
  {
    reply := scraper.ScrapeProduct(t.asin, page);
    if reply.Raised? {
      return false, map[], reply;
    }
    var data := ScrapeDict(reply.scrape);
    ReplyMeaning(reply);
    if Get(data, KeyPageStatus) == Text("not_found") {
      settled, u := true, NotFoundUpdate(t.id);
    } else if Truthy(Get(data, KeyTitle)) {
      settled, u := true, data[KeyId := Int(t.id)];
    } else {
      settled, u := false, map[];
    }
  }

  /** One more pass-2 call appends the update its reply calls for. */
  lemma {:induction false} RetryStep(retry: seq<Target>, replies: seq<Reply>, more: seq<Reply>, reply: Reply)
    requires |more| < |retry|
    ensures Pass2(retry[..|more| + 1], Replayed(replies + (more + [reply])), |replies|)
            == Pass2(retry[..|more|], Replayed(replies + more), |replies|) + [RetryUpdate(retry[|more|], reply)]
  {
    var i := |more|;
    var all := replies + more;
    var all' := replies + (more + [reply]);
    assert all'[..|all|] == all;
    Pass2Replay(retry[..i], all, all', |replies|);
    assert Replayed(all')(|replies| + i, retry[i].asin) == reply;
    Pass2Snoc(retry, Replayed(all'), |replies|, i);
  }

  /** The replies to the first calls of pass 2 stay answers when one more is recorded. */
  lemma AnswersSnoc(baseUrl: string, retry: seq<Target>, browser: seq<Option<Page>>, base: nat,
                    more: seq<Reply>, reply: Reply, page: Option<Page>)
    requires |more| < |retry| && page == Shown(browser, base + |more|)
    requires forall j :: 0 <= j < |more| ==> Answers(baseUrl, more[j], retry[j].asin, Shown(browser, base + j))
    requires Answers(baseUrl, reply, retry[|more|].asin, page)
    ensures forall j :: 0 <= j < |more| + 1 ==>
              Answers(baseUrl, (more + [reply])[j], retry[j].asin, Shown(browser, base + j))
  {
    forall j | 0 <= j < |more| + 1
      ensures Answers(baseUrl, (more + [reply])[j], retry[j].asin, Shown(browser, base + j))
    {
      if j < |more| {
        assert (more + [reply])[j] == more[j];
      }
    }
  }

  /** One pass-2 iteration: call k of the scraper for row `t`, and the update its reply calls for. */
  method RetryOnce(scraper: AmazonScraper, t: Target, page: Option<Page>)
    returns (u: Dict, reply: Reply)
    requires scraper.hasDriver
    ensures Answers(scraper.baseUrl, reply, t.asin, page)
    ensures u == RetryUpdate(t, reply)
  {
    reply := scraper.ScrapeProduct(t.asin, page);
    if reply.Raised? {
      return FailedUpdate(t.id), reply;
    }
    var data := ScrapeDict(reply.scrape);
    ReplyMeaning(reply);
    if Get(data, KeyPageStatus) == Text("not_found") {
      u := NotFoundUpdate(t.id);
    } else if Truthy(Get(data, KeyTitle)) {
      u := data[KeyId := Int(t.id)][KeyEnrichmentStatus := Text(LabelRetrySuccess)];
    } else {
      u := FailedUpdate(t.id);
    }
  }

  /**
   * Pass 2 of `main`: one more call per queued row, numbered on from the
   * `replies` of pass 1, appending exactly one update for each row; `more` are
   * the replies of these calls.
   */
  method RetryPass(scraper: AmazonScraper, updates: seq<Dict>, retry: seq<Target>,
                   browser: seq<Option<Page>>, replies: seq<Reply>, escapeAt: Option<nat>)
    returns (result: seq<Dict>, more: seq<Reply>)
    requires scraper.hasDriver
    requires escapeAt.None? || |replies| <= escapeAt.value
    ensures |more| == if escapeAt.Some? && escapeAt.value < |replies| + |retry| then escapeAt.value - |replies| else |retry|
    ensures forall j :: 0 <= j < |more| ==>
              Answers(scraper.baseUrl, more[j], retry[j].asin, Shown(browser, |replies| + j))
    ensures result == updates + Pass2(retry[..|more|], Replayed(replies + more), |replies|)
  {
    result, more := updates, [];
    if retry == [] {
      return;
    }
    while |more| < |retry| && (escapeAt.None? || |replies| + |more| < escapeAt.value)
      invariant |more| <= |retry|
      invariant escapeAt.None? || |replies| + |more| <= escapeAt.value
      invariant forall j :: 0 <= j < |more| ==>
                  Answers(scraper.baseUrl, more[j], retry[j].asin, Shown(browser, |replies| + j))
      invariant result == updates + Pass2(retry[..|more|], Replayed(replies + more), |replies|)
      decreases |retry| - |more|
    {
      result, more := RetryNext(scraper, updates, retry, browser, replies, result, more);
    }
  }

  /** One iteration of pass 2: the next queued row is scraped and its update appended. */
  method RetryNext(scraper: AmazonScraper, updates: seq<Dict>, retry: seq<Target>,
                   browser: seq<Option<Page>>, replies: seq<Reply>, result: seq<Dict>, more: seq<Reply>)
    returns (result': seq<Dict>, more': seq<Reply>)
    requires scraper.hasDriver && |more| < |retry|
    requires forall j :: 0 <= j < |more| ==>
               Answers(scraper.baseUrl, more[j], retry[j].asin, Shown(browser, |replies| + j))
    requires result == updates + Pass2(retry[..|more|], Replayed(replies + more), |replies|)
    ensures |more'| == |more| + 1
    ensures forall j :: 0 <= j < |more'| ==>
              Answers(scraper.baseUrl, more'[j], retry[j].asin, Shown(browser, |replies| + j))
    ensures result' == updates + Pass2(retry[..|more'|], Replayed(replies + more'), |replies|)
  {
    var i := |more|;
    var page := Shown(browser, |replies| + i);
    var u, reply := RetryOnce(scraper, retry[i], page);
    RetryStep(retry, replies, more, reply);
    AnswersSnoc(scraper.baseUrl, retry, browser, |replies|, more, reply, page);
    result', more' := result + [u], more + [reply];
  }

  /**
   * Both passes ran over `targets` with a scraper whose product URLs start
   * with `baseUrl`: every call answered its row's page, the calls of pass 2
   * are the queued rows', and `updates` are the run's updates for these replies.
   */
  ghost predicate PassesRan(baseUrl: string, targets: seq<Target>, browser: seq<Option<Page>>,
                            replies: seq<Reply>, updates: seq<Dict>)
  {
    var retry := Pass1(targets, Replayed(replies)).1;
    && |replies| == |targets| + |retry|
    && (forall k :: 0 <= k < |targets| ==> Answers(baseUrl, replies[k], targets[k].asin, Shown(browser, k)))
    && (forall j :: 0 <= j < |retry| ==>
          Answers(baseUrl, replies[|targets| + j], retry[j].asin, Shown(browser, |targets| + j)))
    && updates == Updates(targets, Replayed(replies))
  }

  /**
   * The passes were cut short by an exception they do not catch, raised
   * during call `k` of the run: the `k` calls before it were made and
   * answered in order, and call `k` is one the passes make (the row `k` of
   * pass 1, or a row queued for pass 2).
   */
  ghost predicate EscapedAt(baseUrl: string, targets: seq<Target>, browser: seq<Option<Page>>,
                            replies: seq<Reply>, k: nat)
  {
    && |replies| == k
    && (forall i :: 0 <= i < k && i < |targets| ==> Answers(baseUrl, replies[i], targets[i].asin, Shown(browser, i)))
    && (|targets| <= k ==>
          var retry := Pass1(targets, Replayed(replies)).1;
          && k < |targets| + |retry|
          && forall j :: 0 <= j < k - |targets| ==>
               Answers(baseUrl, replies[|targets| + j], retry[j].asin, Shown(browser, |targets| + j)))
  }

  /**
   * An exception raised during a call of pass 2 leaves the replies of pass 1
   * and of the retries before it, and the retry queue pass 1 built.
   */
  lemma EscapedInRetry(baseUrl: string, targets: seq<Target>, browser: seq<Option<Page>>,
                       first: seq<Reply>, more: seq<Reply>, retry: seq<Target>)
    requires |first| == |targets| && |more| < |retry|
    requires retry == Pass1(targets, Replayed(first)).1
    requires forall k :: 0 <= k < |targets| ==> Answers(baseUrl, first[k], targets[k].asin, Shown(browser, k))
    requires forall j :: 0 <= j < |more| ==>
               Answers(baseUrl, more[j], retry[j].asin, Shown(browser, |first| + j))
    ensures EscapedAt(baseUrl, targets, browser, first + more, |first| + |more|)
  {
    var all := first + more;
    assert all[..|first|] == first;
    Pass1Replay(targets, first, all);
    AnswersConcat(baseUrl, targets, retry, browser, first, more);
  }

  /**
   * Pass 1 followed by pass 2, as `main` runs them: the replies of both passes
   * in call order replay to exactly the updates of the run, and the calls of
   * pass 2 are the retries of the rows pass 1 queued.
   */
  lemma {:induction false} PassesCompose(baseUrl: string, targets: seq<Target>, browser: seq<Option<Page>>,
                                         first: seq<Reply>, more: seq<Reply>,
                                         updates: seq<Dict>, retry: seq<Target>, result: seq<Dict>)
    requires |first| == |targets|
    requires updates == Pass1(targets, Replayed(first)).0 && retry == Pass1(targets, Replayed(first)).1
    requires forall k :: 0 <= k < |targets| ==> Answers(baseUrl, first[k], targets[k].asin, Shown(browser, k))
    requires |more| == |retry|
    requires forall j :: 0 <= j < |retry| ==>
               Answers(baseUrl, more[j], retry[j].asin, Shown(browser, |first| + j))
    requires result == updates + Pass2(retry, Replayed(first + more), |first|)
    ensures PassesRan(baseUrl, targets, browser, first + more, result)
  {
    var all := first + more;
    assert all[..|first|] == first;
    Pass1Replay(targets, first, all);
    AnswersConcat(baseUrl, targets, retry, browser, first, more);
  }

  /**
   * The answers of pass 1 and of (some or all of) pass 2, recorded one after
   * the other, stay answers to the same calls.
   */
  lemma AnswersConcat(baseUrl: string, targets: seq<Target>, retry: seq<Target>, browser: seq<Option<Page>>,
                      first: seq<Reply>, more: seq<Reply>)
    requires |first| == |targets| && |more| <= |retry|
    requires forall k :: 0 <= k < |targets| ==> Answers(baseUrl, first[k], targets[k].asin, Shown(browser, k))
    requires forall j :: 0 <= j < |more| ==>
               Answers(baseUrl, more[j], retry[j].asin, Shown(browser, |first| + j))
    ensures forall k :: 0 <= k < |targets| ==> Answers(baseUrl, (first + more)[k], targets[k].asin, Shown(browser, k))
    ensures forall j :: 0 <= j < |more| ==>
              Answers(baseUrl, (first + more)[|targets| + j], retry[j].asin, Shown(browser, |targets| + j))
  {
    var all := first + more;
    forall k | 0 <= k < |targets|
      ensures Answers(baseUrl, all[k], targets[k].asin, Shown(browser, k))
    {
      assert all[k] == first[k];
    }
    forall j | 0 <= j < |more|
      ensures Answers(baseUrl, all[|targets| + j], retry[j].asin, Shown(browser, |targets| + j))
    {
      assert all[|targets| + j] == more[j];
    }
  }

  /** The outcome of one row after at most two attempts. */
  datatype Verdict = Success | SuccessOnRetry | NotFound | ScrapeFailed

  function Label(v: Verdict): string
  {
    match v
    case Success => LabelSuccess
    case SuccessOnRetry => LabelRetrySuccess
    case NotFound => LabelNotFound
    case ScrapeFailed => LabelFailed
  }

  /**
   * The per-row state machine: a missing page or a titled page settles the row
   * on the first attempt; otherwise the second attempt decides.
   */
  function VerdictOf(first: Reply, second: Reply): Verdict
  {
    if first.Returned? && first.scrape.PageNotFound? then NotFound
    else if ReportsTitle(first) then Success
    else if second.Returned? && second.scrape.PageNotFound? then NotFound
    else if ReportsTitle(second) then SuccessOnRetry
    else ScrapeFailed
  }

  /** The call that retries row `i`: after every first attempt, in queue order. */
  function RetryCall(targets: seq<Target>, scrape: Scraper, i: nat): nat
    requires i < |targets|
  {
    |targets| + |Pass1(targets[..i], scrape).1|
  }

  /** The update a row ends with, given the replies to its first and (if made) second attempt. */
  function Outcome(t: Target, first: Reply, second: Reply): Dict
  {
    if Settles(first) then FirstUpdate(t, first) else RetryUpdate(t, second)
  }

  /** The update row `i` ends with. */
  function RowUpdate(targets: seq<Target>, scrape: Scraper, i: nat): Dict
    requires i < |targets|
  {
    Outcome(targets[i], scrape(i, targets[i].asin), scrape(RetryCall(targets, scrape, i), targets[i].asin))
  }

  /** The verdict on row `i`. */
  function RowVerdict(targets: seq<Target>, scrape: Scraper, i: nat): Verdict
    requires i < |targets|
  {
    VerdictOf(scrape(i, targets[i].asin), scrape(RetryCall(targets, scrape, i), targets[i].asin))
  }

  function RowUpdates(targets: seq<Target>, scrape: Scraper, m: nat): seq<Dict>
    requires m <= |targets|
  {
    seq(m, i requires 0 <= i < m => RowUpdate(targets, scrape, i))
  }

  lemma {:induction false} UpdatesPrefix(targets: seq<Target>, scrape: Scraper, m: nat)
    requires m <= |targets|
    ensures multiset(Pass1(targets[..m], scrape).0 + Pass2(Pass1(targets[..m], scrape).1, scrape, |targets|))
            == multiset(RowUpdates(targets, scrape, m))
  {
    if m == 0 {
      assert targets[..0] == [];
    } else {
      var n := m - 1;
      UpdatesPrefix(targets, scrape, n);
      var updates := Pass1(targets[..n], scrape).0;
      var later := Pass2(Pass1(targets[..n], scrape).1, scrape, |targets|);
      var row := RowUpdate(targets, scrape, n);
      assert RowUpdates(targets, scrape, m) == RowUpdates(targets, scrape, n) + [row];
      if Settles(scrape(n, targets[n].asin)) {
        Pass1Settled(targets, scrape, n);
        SnocMultiset(updates, later, row);
      } else {
        QueuedRow(targets, scrape, n);
        AppendMultiset(updates, later, row);
      }
    }
  }

  /** A row its first attempt does not settle adds its own update at the end of pass 2. */
  lemma {:induction false} QueuedRow(targets: seq<Target>, scrape: Scraper, n: nat)
    requires n < |targets| && !Settles(scrape(n, targets[n].asin))
    ensures Pass1(targets[..n + 1], scrape).0 == Pass1(targets[..n], scrape).0
    ensures Pass2(Pass1(targets[..n + 1], scrape).1, scrape, |targets|)
            == Pass2(Pass1(targets[..n], scrape).1, scrape, |targets|) + [RowUpdate(targets, scrape, n)]
  {
    Pass1Queued(targets, scrape, n);
    var retry := Pass1(targets[..n], scrape).1;
    var second := scrape(|targets| + |retry|, targets[n].asin);
    calc {
      Pass2(Pass1(targets[..n + 1], scrape).1, scrape, |targets|);
      Pass2(retry + [targets[n]], scrape, |targets|);
      == { Pass2Append(retry, targets[n], scrape, |targets|); }
      Pass2(retry, scrape, |targets|) + [RetryUpdate(targets[n], second)];
      == { QueuedRowUpdate(targets, scrape, n, second); }
      Pass2(retry, scrape, |targets|) + [RowUpdate(targets, scrape, n)];
    }
  }

  /** Queueing one more row appends its retry's update to pass 2. */
  lemma {:induction false} Pass2Append(retry: seq<Target>, t: Target, scrape: Scraper, base: nat)
    ensures Pass2(retry + [t], scrape, base) == Pass2(retry, scrape, base) + [RetryUpdate(t, scrape(base + |retry|, t.asin))]
  {
    assert (retry + [t])[..|retry|] == retry;
  }

  /** The update of a queued row is its retry's update, the retry being the call after the earlier queued rows' retries. */
  lemma {:induction false} QueuedRowUpdate(targets: seq<Target>, scrape: Scraper, n: nat, second: Reply)
    requires n < |targets| && !Settles(scrape(n, targets[n].asin))
    requires second == scrape(|targets| + |Pass1(targets[..n], scrape).1|, targets[n].asin)
    ensures RowUpdate(targets, scrape, n) == RetryUpdate(targets[n], second)
  {
  }

  lemma SnocMultiset<T>(a: seq<T>, b: seq<T>, x: T)
    ensures multiset(a + [x] + b) == multiset(a + b) + multiset{x}
  {
    assert a + [x] + b == a + ([x] + b);
  }

  lemma AppendMultiset<T>(a: seq<T>, b: seq<T>, x: T)
    ensures multiset(a + (b + [x])) == multiset(a + b) + multiset{x}
  {
    assert a + (b + [x]) == (a + b) + [x];
  }

  /**
   * Every selected row yields exactly one update, and it is the update its own
   * attempts call for: the updates of a run are, up to order, the rows' updates.
   */
  lemma OneUpdatePerRow(targets: seq<Target>, scrape: Scraper)
    ensures multiset(Updates(targets, scrape)) == multiset(RowUpdates(targets, scrape, |targets|))
    ensures |Updates(targets, scrape)| == |targets|
  {
    UpdatesPrefix(targets, scrape, |targets|);
    assert targets[..|targets|] == targets;
    assert |multiset(Updates(targets, scrape))| == |multiset(RowUpdates(targets, scrape, |targets|))|;
  }

  /**
   * The update of row `i` carries the row's id and, read with a default of
   * 'Success', the label of the row's verdict; it holds a Listing Status only
   * for a missing page and a non-empty Title only for a success.
   */
  lemma RowUpdateMeaning(targets: seq<Target>, scrape: Scraper, i: nat)
    requires i < |targets|
    ensures var u := RowUpdate(targets, scrape, i);
            var v := RowVerdict(targets, scrape, i);
            && KeyId in u && u[KeyId] == Int(targets[i].id)
            && GetOr(u, KeyEnrichmentStatus, Text(LabelSuccess)) == Text(Label(v))
            && (KeyListingStatus in u <==> v == NotFound)
            && (Truthy(Get(u, KeyTitle)) <==> v == Success || v == SuccessOnRetry)
  {
    OutcomeMeaning(targets[i], scrape(i, targets[i].asin), scrape(RetryCall(targets, scrape, i), targets[i].asin));
  }

  /** `RowUpdateMeaning` for any pair of replies. */
  lemma OutcomeMeaning(t: Target, first: Reply, second: Reply)
    ensures var u := Outcome(t, first, second);
            var v := VerdictOf(first, second);
            && KeyId in u && u[KeyId] == Int(t.id)
            && GetOr(u, KeyEnrichmentStatus, Text(LabelSuccess)) == Text(Label(v))
            && (KeyListingStatus in u <==> v == NotFound)
            && (Truthy(Get(u, KeyTitle)) <==> v == Success || v == SuccessOnRetry)
  {
    if ReportsNotFound(first) {
      NotFoundKeys(t.id);
    } else if ReportsTitle(first) {
      FoundKeys(first, t.id);
    } else if ReportsNotFound(second) {
      NotFoundKeys(t.id);
    } else if ReportsTitle(second) {
      FoundKeys(second, t.id);
    } else {
      FailedKeys(t.id);
    }
  }

  lemma NotFoundKeys(id: int)
    ensures var u := NotFoundUpdate(id);
            && KeyId in u && u[KeyId] == Int(id)
            && KeyEnrichmentStatus in u && u[KeyEnrichmentStatus] == Text(LabelNotFound)
            && KeyListingStatus in u && !Truthy(Get(u, KeyTitle))
  {
  }

  lemma FailedKeys(id: int)
    ensures var u := FailedUpdate(id);
            && KeyId in u && u[KeyId] == Int(id)
            && KeyEnrichmentStatus in u && u[KeyEnrichmentStatus] == Text(LabelFailed)
            && KeyListingStatus !in u && !Truthy(Get(u, KeyTitle))
  {
  }

  /** The found-page updates of both passes: the id set, a title, no Listing Status. */
  lemma FoundKeys(reply: Reply, id: int)
    requires ReportsTitle(reply)
    ensures var u := ScrapeDict(reply.scrape)[KeyId := Int(id)];
            && KeyId in u && u[KeyId] == Int(id)
            && KeyEnrichmentStatus !in u && KeyListingStatus !in u && Truthy(Get(u, KeyTitle))
    ensures var u := ScrapeDict(reply.scrape)[KeyId := Int(id)][KeyEnrichmentStatus := Text(LabelRetrySuccess)];
            && KeyId in u && u[KeyId] == Int(id)
            && KeyListingStatus !in u && Truthy(Get(u, KeyTitle))
  {
    ReplyMeaning(reply);
  }

  /** Pass 1 either settles or queues each row: the two counts add up to the row count. */
  lemma {:induction false} Pass1Splits(targets: seq<Target>, scrape: Scraper)
    ensures |Pass1(targets, scrape).0| + |Pass1(targets, scrape).1| == |targets|
    decreases |targets|
  {
    if targets != [] {
      var n := |targets| - 1;
      Pass1Splits(targets[..n], scrape);
    }
  }
}
