/**
 * `main`: read the configuration, fetch the catalogue table, pick the rows to
 * scrape, run the two scraping passes, always close the browser once scraping
 * has begun, and send the payload to Baserow when there is anything to send.
 */
module Run {
  import opened Wrappers
  import opened Dicts
  import opened Amazon
  import opened Baserow
  import opened Enrichment
  import opened Payload

  /** The settings `main` reads; an empty string stands for a missing or empty one. */
  datatype Config = Config(apiToken: string, baseUrl: string, tableId: string, maxItems: int, domain: Option<string>)

  /** The three Baserow settings are all present. */
  predicate Complete(c: Config)
  {
    c.apiToken != "" && c.baseUrl != "" && c.tableId != ""
  }

  /**
   * How `main` ended: returned early for want of a configuration, of a
   * complete one, of rows or of a browser; raised while fetching the table or
   * selecting the ASIN column; raised out of the scraping passes (after
   * closing the browser); or ran to the end.
   */
  datatype Exit = NoConfig | IncompleteConfig | FetchFailed | EmptyTable | MissingAsinColumn | NoDriver
                | Interrupted | Finished

  /**
   * What a run did: the page URLs it requested, the rows it picked, the
   * scraper's replies in call order, how often it closed the browser, the
   * updates and payload of a finished run, the batches it sent and whether Baserow took
   * them all (None when nothing was sent).
   */
  datatype Report = Report(exit: Exit, requested: seq<string>, targets: seq<Target>, replies: seq<Reply>, quits: nat,
                           updates: seq<Dict>, payload: seq<Dict>, sent: seq<seq<Dict>>, written: Option<bool>)

  /** The product URL prefix of a scraper configured with `domain`. */
  function ScraperBase(domain: Option<string>): string
  {
    "https://www." + (if domain.Some? then domain.value else DefaultDomain) + "/dp/"
  }

  /** How `main` ends on a given configuration, table and browser start. */
  function ExitOf(config: Option<Config>, pages: seq<PageReply>, driverStarts: bool): Exit
    requires Terminates(pages)
  {
    if config.None? then NoConfig
    else if !Complete(config.value) then IncompleteConfig
    else if ReadAll(pages).Err? then FetchFailed
    else if ReadAll(pages).value == [] then EmptyTable
    else if !HasAsinColumn(ReadAll(pages).value) then MissingAsinColumn
    else if !driverStarts then NoDriver
    else Finished
  }

  /**
   * `main` scrapes exactly when the configuration is complete, the table
   * could be read, is not empty, has the ASIN column, and the browser starts;
   * every other outcome is an early exit before any scraping.
   */
  lemma ExitMeaning(config: Option<Config>, pages: seq<PageReply>, driverStarts: bool)
    requires Terminates(pages)
    ensures var exit := ExitOf(config, pages, driverStarts);
            && (exit == NoConfig <==> config.None?)
            && (exit == IncompleteConfig <==> config.Some? && !Complete(config.value))
            && (exit == FetchFailed <==> config.Some? && Complete(config.value) && ReadAll(pages).Err?)
            && (exit == EmptyTable <==> config.Some? && Complete(config.value) && ReadAll(pages) == Ok([]))
            && (exit == MissingAsinColumn <==>
                  && config.Some? && Complete(config.value)
                  && ReadAll(pages).Ok? && ReadAll(pages).value != [] && !HasAsinColumn(ReadAll(pages).value))
            && (exit == NoDriver <==>
                  && config.Some? && Complete(config.value)
                  && ReadAll(pages).Ok? && ReadAll(pages).value != [] && HasAsinColumn(ReadAll(pages).value)
                  && !driverStarts)
            && (exit == Finished <==>
                  && config.Some? && Complete(config.value)
                  && ReadAll(pages).Ok? && ReadAll(pages).value != [] && HasAsinColumn(ReadAll(pages).value)
                  && driverStarts)
  {
  }

  /**
   * The sending step for `updates`: nothing at all when there are none;
   * otherwise the payload holds one item per update, stamped by `clock`, it
   * went out in batches of `BatchSize`, and `written` says whether Baserow
   * took every batch.
   */
  ghost predicate Delivered(updates: seq<Dict>, clock: nat -> string, accept: (nat, seq<Dict>) -> bool,
                            payload: seq<Dict>, sent: seq<seq<Dict>>, written: Option<bool>)
  {
    && (written.Some? <==> updates != [])
    && (written.None? ==> payload == [] && sent == [])
    && (written.Some? ==>
          && |payload| == |updates|
          && (forall k :: 0 <= k < |updates| ==> Prepared(updates[k]) && payload[k] == PayloadItem(updates[k], clock(k)))
          && sent == Chunks(payload, BatchSize)
          && (written.value <==> EveryBatch(sent, accept)))
  }

  /**
   * `main`, with the outside world as parameters: `pages` are Baserow's
   * replies to the table reads, `driverStarts` whether the browser comes up,
   * `browser` what its navigations show (see `Shown`), `clock(k)` the time
   * stamped on the k-th payload item, `accept(k, batch)` whether Baserow
   * takes the k-th batch, and `escapeAt` the scraper call, if any, during
   * which an exception the passes do not catch is raised.
   */
  method Enrich(config: Option<Config>, pages: seq<PageReply>, driverStarts: bool,
                browser: seq<Option<Page>>, clock: nat -> string, accept: (nat, seq<Dict>) -> bool,
                escapeAt: Option<nat>)
    returns (report: Report)
    requires Terminates(pages)
    ensures report.exit == ExitOf(config, pages, driverStarts)
            || (report.exit == Interrupted && ExitOf(config, pages, driverStarts) == Finished)
    ensures config.Some? && Complete(config.value) ==>
              RequestedPages(report.requested, Open(config.value.apiToken, config.value.baseUrl).value.baseUrl,
                             config.value.tableId, FirstStop(pages) + 1)
    ensures !(config.Some? && Complete(config.value)) ==> report.requested == []
    ensures report.exit != Finished && report.exit != Interrupted ==> report.replies == [] && report.quits == 0
    ensures report.exit != Finished ==>
              report.updates == [] && report.payload == [] && report.sent == [] && report.written.None?
    ensures report.exit == Interrupted ==>
              var c := config.value;
              && report.targets == Select(ReadAll(pages).value, c.maxItems)
              && escapeAt.Some?
              && EscapedAt(ScraperBase(c.domain), report.targets, browser, report.replies, escapeAt.value)
              && report.quits == 1
    ensures report.exit == Finished ==>
              var c := config.value;
              && report.targets == Select(ReadAll(pages).value, c.maxItems)
              && PassesRan(ScraperBase(c.domain), report.targets, browser, report.replies, report.updates)
              && (escapeAt.None? || |report.replies| <= escapeAt.value)
              && report.quits == 1
              && Delivered(report.updates, clock, accept, report.payload, report.sent, report.written)
  {
    report := Report(NoConfig, [], [], [], 0, [], [], [], None);
    if config.None? {
      return;
    }
    var c := config.value;
    if !Complete(c) {
      report := report.(exit := IncompleteConfig);
      return;
    }
    var conn := Open(c.apiToken, c.baseUrl);
    var table, requested := GetTable(conn.value, c.tableId, pages);
    report := report.(requested := requested);
    if table.Err? {
      report := report.(exit := FetchFailed);
      return;
    }
    var rows := table.value;
    if rows == [] {
      report := report.(exit := EmptyTable);
      return;
    }
    if !HasAsinColumn(rows) {
      report := report.(exit := MissingAsinColumn);
      return;
    }
    var targets := Select(rows, c.maxItems);
    report := report.(targets := targets);

    var started, escaped, all, updates, quits := ScrapeAll(c.domain, driverStarts, targets, browser, escapeAt);
    if !started {
      report := report.(exit := NoDriver);
      return;
    }
    if escaped {
      report := report.(exit := Interrupted, replies := all, quits := quits);
      return;
    }
    UpdatesPrepared(targets, Replayed(all));
    var payload, sent, written := Send(conn.value, c.tableId, updates, clock, accept);
    report := Report(Finished, requested, targets, all, quits, updates, payload, sent, written);
  }

  /**
   * The scraping part of `main`: start the scraper; when its browser is up,
   * run both passes and then close the browser once (the `finally`).
   */
  method ScrapeAll(domain: Option<string>, driverStarts: bool, targets: seq<Target>, browser: seq<Option<Page>>,
                   escapeAt: Option<nat>)
    returns (started: bool, escaped: bool, replies: seq<Reply>, updates: seq<Dict>, quits: nat)
    ensures started == driverStarts
    ensures !started ==> !escaped && replies == [] && updates == [] && quits == 0
    ensures started ==> quits == 1
    ensures started && escaped ==> escapeAt.Some? && EscapedAt(ScraperBase(domain), targets, browser, replies, escapeAt.value)
    ensures started && !escaped ==>
              && PassesRan(ScraperBase(domain), targets, browser, replies, updates)
              && (escapeAt.None? || |replies| <= escapeAt.value)
  {
    var scraper := new AmazonScraper(domain, driverStarts);
    started := scraper.hasDriver;
    if !started {
      return false, false, [], [], 0;
    }
    replies, updates, escaped := RunPasses(scraper, targets, browser, escapeAt);
    // the `finally`: the browser is closed whether or not an exception escaped the passes
    scraper.QuitDriver();
    quits := scraper.quitCalls;
  }

  /**
   * The two passes of `main` with a scraper whose browser is up. `escapeAt`
   * is the call, if any, during which an exception that the passes do not
   * catch is raised (a `KeyboardInterrupt`, say); `escaped` says whether the
   * passes got that far, in which case they end there.
   */
  method RunPasses(scraper: AmazonScraper, targets: seq<Target>, browser: seq<Option<Page>>, escapeAt: Option<nat>)
    returns (replies: seq<Reply>, updates: seq<Dict>, escaped: bool)
    requires scraper.hasDriver
    ensures escaped ==> escapeAt.Some? && EscapedAt(scraper.baseUrl, targets, browser, replies, escapeAt.value)
    ensures !escaped ==>
              && PassesRan(scraper.baseUrl, targets, browser, replies, updates)
              && (escapeAt.None? || |replies| <= escapeAt.value)
  {
    var firstReplies, more, first, retry;
    first, retry, firstReplies := FirstPass(scraper, targets, browser, escapeAt);
    if |firstReplies| < |targets| {
      return firstReplies, first, true;
    }
    assert targets[..|firstReplies|] == targets;
    updates, more := RetryPass(scraper, first, retry, browser, firstReplies, escapeAt);
    replies := firstReplies + more;
    if |more| < |retry| {
      EscapedInRetry(scraper.baseUrl, targets, browser, firstReplies, more, retry);
      return replies, updates, true;
    }
    assert retry[..|more|] == retry;
    PassesCompose(scraper.baseUrl, targets, browser, firstReplies, more, first, retry, updates);
    escaped := false;
  }

  /** The sending part of `main`: with updates to send, build the payload and write it in batches. */
  method Send(conn: Connector, tableId: string, updates: seq<Dict>, clock: nat -> string,
              accept: (nat, seq<Dict>) -> bool)
    returns (payload: seq<Dict>, sent: seq<seq<Dict>>, written: Option<bool>)
    requires forall k :: 0 <= k < |updates| ==> Prepared(updates[k])
    ensures Delivered(updates, clock, accept, payload, sent, written)
  {
    payload, sent, written := [], [], None;
    if updates != [] {
      payload := BuildPayload(updates, clock);
      var ok;
      ok, sent := UpdateRows(conn, tableId, payload, accept);
      written := Some(ok);
    }
  }
}
