# Catalog Enrichment Scraper, modelled in Dafny

The Catalog Enrichment Scraper is a Python script. It works in six steps:

1. It reads a product catalogue from a Baserow table, page by page.
2. It picks the rows that carry a marketplace ASIN, optionally only the first few.
3. It drives a Chrome browser over each row's Amazon product page in a first pass.
4. It retries the rows that did not settle in a second pass.
5. It always closes the browser.
6. It turns the collected updates into a payload that it writes back to Baserow in batches of 200 rows.

This project models that core and proves what it does. The core is:

- `main` in `main.py`;
- `AmazonScraper` in `scrapers/amazon_scraper.py`;
- `BaserowConnector` in `connectors/baserow_connector.py`.

The model is split into modules:

- `Wrappers` and `Dicts`:
  - `Option` and `Result`;
  - the values of the Python dictionaries the script passes around (`None`, text, an integer id);
  - Python truthiness and `dict.get`.
- `Text`: the string operations the script relies on. These are `strip`, `rstrip(c)`, ASCII `lower`, `in`, `split(sep)[0]`, `sep.join` and `split`.
- `Amazon`: the scraper, as a class.
  - The browser's view of one product page is a `Page` record. An element lookup that raised is `None`.
  - `ScrapeProduct` turns such a page into the dictionary `scrape_product` returns.
  - The thumbnail and image-list loops are methods with loop invariants.
- `Baserow`: the table client.
  - The paginated read `GetTable` is proved against a recursive reference `ReadAll` and the characterisation `ReadAllSpec`.
  - The batched write `UpdateRows` is proved against `Chunks`.
  - The server's answers are inputs.
- `Enrichment`: the two scraping passes of `main`.
  - `Pass1`, `Pass2` and `Updates` are pure reference definitions. They are over a scraper oracle `scrape(k, asin)`, the reply to the k-th call of the run.
  - `FirstPass` and `RetryPass` are the imperative loops over a live `AmazonScraper`. They are proved to produce exactly those updates for the replies they received.
  - An exception that the passes do not catch (a `KeyboardInterrupt`, say) is an input: the call during which it is raised. The loops stop there, and the browser is still closed, as the `finally` does.
  - A per-row view (`VerdictOf`, `RowUpdate`) proves that every picked row ends with exactly one update, and which one.
- `Payload`: the payload loop of `main`.
  - `ItemColumn` is a column-by-column reference definition of one payload item.
  - `PayloadItem` follows the source's statement order. It is proved equal to the reference, column by column.
- `Run`: `main` itself, as the method `Enrich`. Everything outside the program is a parameter:
  - the configuration;
  - Baserow's page replies and batch answers;
  - whether the browser starts;
  - what each navigation shows;
  - the clock.

  Its contract relates the run's exit, the pages it requested, the rows it picked, the scraper's replies, the number of times it closed the browser, the updates, and the payload and batches it sent to the reference definitions.

## Model

| member | source | states |
|---|---|---|
| `Text.TrimStart` | scrapers/amazon_scraper.py:57 | `lstrip()`: the result is a suffix of the input, starts with a non-space, and only whitespace was dropped |
| `Text.TrimEnd` | scrapers/amazon_scraper.py:57 | `rstrip()`: the result is a prefix of the input, ends with a non-space, and only whitespace was dropped |
| `Text.StripEnds` | scrapers/amazon_scraper.py:57 | `strip()` yields the empty string or a string with no whitespace at either end |
| `Text.StripEmptyIffBlank` | scrapers/amazon_scraper.py:73 | `strip()` is empty exactly when the input is all whitespace (the test the bullet filter relies on) |
| `Text.StripKeeps` | scrapers/amazon_scraper.py:57 | a string with no whitespace at either end is its own `strip()` |
| `Text.StripIdempotent` | scrapers/amazon_scraper.py:57 | `strip()` applied twice equals `strip()` applied once |
| `Text.TrimEndChar` | connectors/baserow_connector.py:12 | `rstrip('/')`: a prefix of the input not ending in `/`, and only `/` characters were dropped |
| `Text.Lower` | scrapers/amazon_scraper.py:51 | `lower()` keeps the length |
| `Text.BeforeFirst` | scrapers/amazon_scraper.py:79 | `split(sep)[0]`: a prefix of the input with no occurrence of `sep` starting inside it, ending where `sep` first occurs or at the end |
| `Text.BeforeFirstAt` | main.py:150 | `split(sep)[0]` is pinned down by the position of the first occurrence of `sep` |
| `Text.OccursInPrefix` | scrapers/amazon_scraper.py:79 | whether `sep` occurs at a position does not depend on what follows the occurrence |
| `Text.SplitJoin` | scrapers/amazon_scraper.py:73 | splitting on `c` the `c`-join of pieces that do not contain `c` gives the pieces back |
| `Text.JoinHead` | scrapers/amazon_scraper.py:73 | the first split piece of such a join is its first part, and the rest of the join follows the separator |
| `Text.FirstOfJoin` | main.py:150 | with a `", "` join of comma-free parts, the text before the first comma is the first part |
| `Amazon.ScrapeDict` | scrapers/amazon_scraper.py:53-90 | the dictionary of a scrape: ASIN and `page_status` ('not_found' or 'found') always; Title, Status and Image URLs for a found page; Status 'Active' exactly when the Title is truthy, else 'Inactive' |
| `Amazon.ScrapeDictColumns` | scrapers/amazon_scraper.py:53-90 | exactly ASIN and `page_status` for a missing page, and exactly the twelve keys for a found one |
| `Amazon.PriceText` | scrapers/amazon_scraper.py:61-65 | a price exists exactly when both the symbol and the whole part were found, and it is the stripped symbol followed by the stripped whole part |
| `Amazon.StrippedNonBlankMeaning` | scrapers/amazon_scraper.py:73 | the kept bullets are non-empty and already stripped, and every bullet that strips to something is kept in its stripped form |
| `Amazon.StrippedNonBlankAppend` | scrapers/amazon_scraper.py:72-73 | filtering the bullets of two runs of `li` elements is filtering each run in turn: the kept bullets stay in page order |
| `Amazon.StrippedNonBlankOne` | scrapers/amazon_scraper.py:73 | one `li` contributes its stripped text when that is non-empty, and nothing otherwise |
| `Amazon.BulletLines` | scrapers/amazon_scraper.py:73 | splitting the Bullet Points text on newlines gives back the kept bullets (when none contains a newline) |
| `Amazon.Normalized` | scrapers/amazon_scraper.py:79 | a normalised thumbnail URL ends with `._AC_SL1500_.jpg` |
| `Amazon.NormalizedStem` | scrapers/amazon_scraper.py:79 | a normalised URL keeps the part before `._` of the original |
| `Amazon.NormalizedMarker` | scrapers/amazon_scraper.py:79 | a normalised URL starts with the part before `._` of the original, followed by `._` |
| `Amazon.StemHasNoMarker` | scrapers/amazon_scraper.py:79 | no `._` starts inside the kept part of a normalised URL |
| `Amazon.NormalizedIdempotent` | scrapers/amazon_scraper.py:79 | normalising twice equals normalising once |
| `Amazon.CollectThumbnails` | scrapers/amazon_scraper.py:76-80 | the thumbnail loop yields the set of normalised sources, or None (the lookup raises) when a thumbnail has no source |
| `Amazon.ListOf` | scrapers/amazon_scraper.py:84 | `list(s)` lists every element of the set exactly once |
| `Amazon.CollectImageUrls` | scrapers/amazon_scraper.py:75-85 | Image URLs are a `", "` join of some listing of the thumbnails, or of the landing image alone when there are none; None when the set cannot be built or is empty |
| `Amazon.AmazonScraper.constructor` | scrapers/amazon_scraper.py:14-19 | the domain defaults to amazon.in, the base URL is `https://www.<domain>/dp/`, and the scraper has a browser exactly when the driver came up |
| `Amazon.AmazonScraper.ScrapeProduct` | scrapers/amazon_scraper.py:38-93 | it raises exactly without a browser, for a non-text ASIN, or when navigation raised; otherwise a "page not found" title gives the not-found result and any other page gives every field from its own lookup |
| `Amazon.AmazonScraper.QuitDriver` | scrapers/amazon_scraper.py:95-98 | the browser is closed once per call when there is one, and otherwise nothing happens |
| `Baserow.Open` | connectors/baserow_connector.py:11-19 | the constructor raises exactly for an empty token; otherwise the base URL loses its trailing slashes and nothing else |
| `Baserow.FirstStop` | connectors/baserow_connector.py:26-39 | the read loop ends at the first page that failed, has no next page, or has no rows |
| `Baserow.ReadAllSpec` | connectors/baserow_connector.py:21-47 | the read fails exactly when the page that ends the loop failed; otherwise it returns the rows of every page up to that one, in page order |
| `Baserow.RequestedNext` | connectors/baserow_connector.py:27 | requesting the next page adds that page's URL to the requested ones |
| `Baserow.ReadAllStep` | connectors/baserow_connector.py:26-36 | reading on from page i with some rows in hand gives the same result as reading on from page i + 1 with page i's rows added, when page i does not end the loop |
| `Baserow.GetTable` | connectors/baserow_connector.py:21-47 | the loop returns what `ReadAll` returns and requests pages 1 to the stopping page, each with `size=200` |
| `Baserow.ChunksFlatten` | connectors/baserow_connector.py:61-62 | the batches put back together are the rows, in order |
| `Baserow.ChunksSizes` | connectors/baserow_connector.py:58-62 | every batch holds between 1 and 200 rows, and all but the last hold exactly 200 |
| `Baserow.ChunksCount` | connectors/baserow_connector.py:65 | there are `(n - 1) // 200 + 1` batches for n > 0 rows, and none for no rows |
| `Baserow.ChunksStep` | connectors/baserow_connector.py:61-62 | sending the batch that starts at `i` moves it from the batches still to send to the batches sent |
| `Baserow.EveryBatchSnoc` | connectors/baserow_connector.py:59-72 | the overall result stays true after one more batch exactly when it was true and that batch succeeded |
| `Baserow.UpdateRows` | connectors/baserow_connector.py:49-76 | every batch is sent, in order, carrying on after a failed one; the result is true exactly when Baserow accepted every batch (true with nothing sent for no rows) |
| `Baserow.NoResponseFrom` | connectors/baserow_connector.py:67-71 | the first batch whose request failed without a response, if there is one |
| `Baserow.NoResponseAt` | connectors/baserow_connector.py:67-71 | the first batch without a response is the one after a run of batches that all got one |
| `Baserow.UpdateRowsAsWritten` | connectors/baserow_connector.py:49-76 | the code as written: it raises at the first batch that got no response, having sent the batches up to it; otherwise it reports the same result as `UpdateRows` |
| `Baserow.AsWrittenStep` | connectors/baserow_connector.py:70-72 | a batch without a response, after batches that all got one, is where the code as written raises and stops sending |
| `Baserow.AsWrittenAgrees` | connectors/baserow_connector.py:67-74 | when every batch got a response, the code as written sends every batch and reports what `UpdateRows` reports |
| `Baserow.NoResponseSkipsBatches` | connectors/baserow_connector.py:70-74 | 201 rows with no response to the first batch: the code as written raises and never sends the second batch |
| `Enrichment.WithAsin` | main.py:74 | every kept target has a non-null ASIN, every row with one is kept, and every kept target comes from such a row |
| `Enrichment.WithAsinAppend` | main.py:74 | picking over two stretches of the table is picking over each in turn, so the targets keep table order |
| `Enrichment.WithAsinOne` | main.py:74 | one row yields exactly one target, its own id and ASIN, when its ASIN is not null, and none otherwise; duplicate ASINs are kept once per row |
| `Enrichment.Select` | main.py:74-82 | the rows to scrape are a prefix of the rows with an ASIN, `limit` long when `limit` is positive and smaller, else all of them |
| `Enrichment.SelectUpTo` | main.py:77-80 | a positive limit keeps the ASIN rows of the shortest stretch at the start of the table that holds `limit` of them |
| `Enrichment.ReplyMeaning` | main.py:100-107 | the `page_status == 'not_found'` test and the truthy-Title test mean a missing page and a found page with a non-empty title; a found page's dictionary carries no Enrichment Status and no Listing Status |
| `Enrichment.Pass1Settled` | main.py:100-105 | in pass 1, a row settled by its first reply adds its update and queues nothing |
| `Enrichment.Pass1Queued` | main.py:106-110 | in pass 1, a row whose first call raised or found no title adds no update and joins the retry queue |
| `Enrichment.Pass1Splits` | main.py:95-110 | pass 1's updates and its retry queue together hold one entry per row |
| `Enrichment.Pass2Snoc` | main.py:115-130 | pass 2 over one more queued row appends exactly that row's update |
| `Enrichment.Pass2Append` | main.py:115-130 | queueing one more row appends its retry's update, made by the call after the earlier retries |
| `Enrichment.Pass1Replay` | main.py:95-110 | pass 1 depends only on the replies to its own calls |
| `Enrichment.Pass2Replay` | main.py:113-130 | pass 2 depends only on the replies to its own calls |
| `Enrichment.FirstOnce` | main.py:98-110 | one pass-1 attempt: the reply is what the scraper answers for that page; the row settles exactly for a missing page or a titled page, with the not-found update or the scraped dictionary carrying the row id |
| `Enrichment.FirstStep` | main.py:98-110 | one more pass-1 call: a settling reply appends its update, and any other reply queues the row |
| `Enrichment.FirstNext` | main.py:95-110 | one iteration of the pass-1 loop keeps the loop invariant: replies answered in order, and the updates and queue equal to `Pass1` of those replies |
| `Enrichment.FirstPass` | main.py:95-110 | pass 1 makes one call per row in order, up to the call an escaping exception interrupts; its updates and retry queue are `Pass1` of the replies it got for the rows it reached |
| `Enrichment.RetryOnce` | main.py:118-130 | one retry: 'ASIN Not Found' for a missing page, the scraped dictionary with 'Success (on retry)' for a titled page, and 'Scrape Failed' otherwise, including when the call raised |
| `Enrichment.RetryStep` | main.py:115-130 | one more pass-2 call appends the update its reply calls for |
| `Enrichment.RetryNext` | main.py:115-130 | one iteration of the pass-2 loop keeps the loop invariant |
| `Enrichment.RetryPass` | main.py:113-130 | pass 2 makes one call per queued row in queue order, numbered after pass 1's calls, up to the call an escaping exception interrupts, and appends `Pass2` of those replies |
| `Enrichment.PassesCompose` | main.py:93-130 | pass 1 followed by pass 2 gives exactly the run's updates (`Updates`) for the replies of both passes, in call order |
| `Enrichment.AnswersConcat` | main.py:95-130 | the replies of pass 1 and of some or all of pass 2, recorded one after the other, still answer the same calls |
| `Enrichment.EscapedInRetry` | main.py:113-132 | an exception escaping a pass-2 call leaves the answered calls of pass 1 and of the earlier retries, and that call is one of the queued retries |
| `Enrichment.UpdatesPrefix` | main.py:90-130 | up to order, the updates for the first m rows are those rows' own updates |
| `Enrichment.QueuedRow` | main.py:106-130 | a row that its first attempt does not settle adds its own update at the end of pass 2 |
| `Enrichment.QueuedRowUpdate` | main.py:113-130 | a queued row's update is the update its retry calls for |
| `Enrichment.OneUpdatePerRow` | main.py:90-130 | every picked row yields exactly one update: up to order, the run's updates are the rows' own updates |
| `Enrichment.RowUpdateMeaning` | main.py:100-130 | a row's update carries its id and its verdict's label (read with the 'Success' default); it has a Listing Status only for a missing page and a truthy Title only for a success |
| `Enrichment.OutcomeMeaning` | main.py:100-130 | the same for any pair of first and second replies, following the per-row state machine |
| `Enrichment.NotFoundKeys` | main.py:101 | the not-found update holds the id, 'ASIN Not Found', a Listing Status and no title |
| `Enrichment.FailedKeys` | main.py:130 | the failed update holds the id and 'Scrape Failed', with no Listing Status and no title |
| `Enrichment.FoundKeys` | main.py:103-126 | a found update (of either pass) has the row id and a truthy Title, and no Listing Status; the pass-1 one has no Enrichment Status |
| `Payload.CopyAsAt` | main.py:140-147 | a guarded copy adds the field under its column exactly when the field is truthy, and leaves every other column alone |
| `Payload.HeaderAt` | main.py:139-140 | the item starts with the id, the Enrichment Status (default 'Success') and the stamp, plus the Status as Listing Status when it is truthy |
| `Payload.CopyFieldsAt` | main.py:141-147 | the seven scraped fields are copied under their own names exactly when truthy |
| `Payload.WithImagesAt` | main.py:148-151 | truthy Image URLs add All Image URLs and Product Image 1 (the stripped text before the first comma) |
| `Payload.PayloadItemAt` | main.py:138-152 | the item built statement by statement holds in every column exactly what the column-wise reference `ItemColumn` says |
| `Payload.PayloadColumns` | main.py:138-152 | an item writes no column outside the thirteen payload columns |
| `Payload.BuildPayload` | main.py:137-152 | one item per update, in order, the k-th built from update k with stamp `clock(k)` |
| `Payload.NotFoundPayload` | main.py:139-140 | the item for a missing page holds only the id, 'ASIN Not Found' and the stamp: its update's Listing Status 'Deleted' is not carried over |
| `Payload.FailedPayload` | main.py:138-139 | the item for a failed row holds only the id, 'Scrape Failed' and the stamp |
| `Payload.FoundImages` | main.py:148-150 | a found update's Image URLs are text or absent, never an integer |
| `Payload.OutcomePrepared` | main.py:138-150 | every row's update has an id and text-or-absent Image URLs, so the payload step cannot raise on it |
| `Payload.UpdatesPrepared` | main.py:134-150 | every update of a run is fit for the payload step |
| `Payload.RowPayload` | main.py:138-152 | a row's item carries its id and its verdict's label, and a Listing Status exactly when the row was scraped with a title, in which case the status is 'Active' |
| `Payload.OutcomeStatus` | main.py:140 | a row's Status is truthy exactly for a titled page, and then it is 'Active' |
| `Payload.FoundStatus` | scrapers/amazon_scraper.py:89 | a titled page's update has Status 'Active' |
| `Payload.FirstImageListed` | main.py:150 | Product Image 1 is one of the scraped image URLs, stripped, when no URL contains a comma |
| `Run.ExitMeaning` | main.py:54-88 | the run scrapes exactly when the configuration is complete, the table could be read, is not empty, has the ASIN column, and the browser starts; each early exit holds exactly when the earlier checks passed and its own check failed |
| `Run.ScrapeAll` | main.py:87-132 | without a browser nothing is scraped; with one, the passes run to the end or to the call an exception escapes from, and either way the browser is closed exactly once afterwards |
| `Run.RunPasses` | main.py:93-130 | the two passes in sequence produce the run's updates for the replies received, unless an exception escapes a call they make, in which case they end at that call |
| `Run.Send` | main.py:134-160 | nothing is sent when there are no updates; otherwise the payload is built and sent in batches, and the result says whether Baserow took every batch |
| `Run.Enrich` | main.py:54-163 | the exit is `ExitOf` of the inputs, or `Interrupted` when an exception escapes the passes; no page is requested without a complete configuration, and pages 1 to the stopping page are requested with one; an early exit makes no call, builds nothing and sends nothing; an interrupted run closes the browser once and sends nothing; a finished run picks `Select` of the table, makes both passes' calls, closes the browser once, and delivers the payload of `Updates` |

## Left out

- Logging is not modelled: the JSON log formatter, the log file set-up, every log message and the final runtime report (main.py:10-40, 162-181). None of them changes what is scraped or written.
- Reading `config.yaml` is not modelled. The configuration is a parameter, `None` when it is missing or empty. A missing Baserow setting is the empty string. The integer table id 0, which Python treats as false, is not distinguished.
- The Selenium set-up is not modelled: the Chrome options, the driver download and the webdriver flag script. Whether the driver came up is a boolean.
- A page's element lookups are the fields of a `Page` record. A lookup that raised, the `productTitle` wait that timed out, and a `get_attribute` that returned None are all `None` there.
- The pause of `random.uniform(min_delay, max_delay)` seconds after each found page is not modelled (scrapers/amazon_scraper.py:16-17, 92). It has no effect on the data.
- The browser is a record of what each scraper call would be shown: `browser[k]` for call k, and `None` when navigating there raised. A call that raises before navigating leaves its entry unused.
- HTTP is not modelled: `requests`, the headers and the JSON decoding. Each page read is a `PageReply`, and each batch write is a yes/no answer. For the code as written, a batch write is a `BatchAnswer`.
- A read that raises an exception other than `RequestException` is not modelled.
- pandas is not modelled. The table is a sequence of rows. A missing or `None` ASIN cell stands for pandas' `notna` being false, and NaN is not a separate value. A table without the ASIN column ends the run with `MissingAsinColumn`, standing for the `KeyError` pandas raises.
- `datetime.now().isoformat()` is the parameter `clock(k)`, the stamp of the k-th payload item.
- Baserow.GetTable: requires that some page ends the read loop. A server that always reports a next page with rows makes the source request pages forever, and the model does not represent that run.
- Run.Enrich: has the same requirement on the pages, for the same reason.
- An exception escaping the passes is placed at a scraper call. A `KeyError` from a table without an `id` column is not modelled, because every row has an id in the model.
- Text.Lower: lowers only ASCII letters. Python's `lower()` also lowers other letters, which can change the "page not found" test for non-ASCII page titles.
- Amazon.AmazonScraper.ScrapeProduct: the order of the Image URLs is any listing of the image set, because the order of Python's set iteration is not specified.
- Payload.FirstImageListed: assumes that no image URL contains a comma. The source cuts at the first comma, so a URL with a comma in it would yield a truncated Product Image 1.
- Run.Enrich: uses the corrected `UpdateRows` (see Findings). With the code as written, a batch that gets no response ends `main` with an `AttributeError` after the browser has already been closed.
- The code has no checkpoint store, no resuming of interrupted runs and no de-duplication of ASINs. The model follows the code: each row with an ASIN is scraped, duplicates included.
- The timestamp is taken per payload item, not once per run. The model follows the code.
- A missing page's update says Listing Status 'Deleted', but the payload step copies Listing Status only from Status. The item sent for such a row therefore has no Listing Status. The model follows the code, and `Payload.NotFoundPayload` states this.

## Findings

| source | as written | input that shows it | evidently intended | confidence | as-written member | corrected member |
|---|---|---|---|---|---|---|
| connectors/baserow_connector.py:70-74 | the error handler logs `e.response.text`, but a request that fails without a response (a connection error or a timeout) has `e.response` set to None, so the handler raises `AttributeError`. The remaining batches are never sent, and the exception ends `main`. | 201 rows, which make two batches, where the first PATCH cannot connect (`Baserow.NoResponseSkipsBatches`) | log the failure, mark the overall result false, and carry on with the next batch, as the handler's comment says | high; not executed | `Baserow.UpdateRowsAsWritten` | `Baserow.UpdateRows` |
