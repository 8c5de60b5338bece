/**
 * The Baserow table client: paginated read of a table and batched row update.
 * HTTP is not modelled: the server's answer to each page request and to each
 * update batch is given as an input.
 */
module Baserow {
  import opened Wrappers
  import opened Dicts
  import opened Text

  /** Rows asked for per page. */
  const PageSize := 200
  /** Baserow's hard limit on rows per batch update. */
  const BatchSize := 200

  /** A table row as Baserow returns it: its id and its named cells. */
  datatype Row = Row(id: int, cells: Dict)

  /** A connector: the API root without trailing slashes, and the token. */
  datatype Connector = Connector(baseUrl: string, apiToken: string)

  /** `BaserowConnector(api_token, base_url)`: raises for an empty token; strips trailing slashes. */
  function Open(apiToken: string, baseUrl: string): (r: Result<Connector>)
    ensures r.Err? <==> apiToken == ""
    ensures r.Ok? ==> r.value.apiToken == apiToken
    ensures r.Ok? ==> (var b := r.value.baseUrl;
                       && |b| <= |baseUrl| && baseUrl[..|b|] == b
                       && (b == [] || b[|b| - 1] != '/')
                       && forall i :: |b| <= i < |baseUrl| ==> baseUrl[i] == '/')
  {
    if apiToken == "" then Err("Baserow API token is required.")
    else Ok(Connector(TrimEndChar(baseUrl, '/'), apiToken))
  }

  function DigitChar(d: nat): char
    requires d < 10
  {
    ('0' as int + d) as char
  }

  /** The decimal representation of `n`, as Python's f-string writes it. */
  function Decimal(n: nat): string
  {
    if n < 10 then [DigitChar(n)] else Decimal(n / 10) + [DigitChar(n % 10)]
  }

  /** The URL of one page of a table. */
  function PageUrl(baseUrl: string, tableId: string, page: nat): string
  {
    baseUrl + "/api/database/rows/table/" + tableId + "/?user_field_names=true&page=" + Decimal(page)
    + "&size=" + Decimal(PageSize)
  }

  /** `requested` is the URLs of pages 1 to n of the table, in order. */
  predicate RequestedPages(requested: seq<string>, baseUrl: string, tableId: string, n: nat)
  {
    |requested| == n && forall i :: 0 <= i < n ==> requested[i] == PageUrl(baseUrl, tableId, i + 1)
  }

  /** Requesting the next page extends the requested URLs by that page's. */
  lemma RequestedNext(requested: seq<string>, baseUrl: string, tableId: string, n: nat)
    requires RequestedPages(requested, baseUrl, tableId, n)
    ensures RequestedPages(requested + [PageUrl(baseUrl, tableId, n + 1)], baseUrl, tableId, n + 1)
  {
  }

  /** Baserow's answer to one page request: a transport error, or the page's rows and whether a next page exists. */
  datatype PageReply = RequestFailed | PageOf(results: seq<Row>, hasNext: bool)

  /** The fetch loop ends at this page: it raised, has no next page, or has no rows. */
  predicate Stops(p: PageReply)
  {
    p.RequestFailed? || !p.hasNext || p.results == []
  }

  /** Some page ends the fetch loop (otherwise it would request pages forever). */
  predicate Terminates(pages: seq<PageReply>)
  {
    exists i :: 0 <= i < |pages| && Stops(pages[i])
  }

  lemma TerminatesTail(pages: seq<PageReply>)
    requires Terminates(pages) && !Stops(pages[0])
    ensures Terminates(pages[1..])
  {
    var i :| 0 <= i < |pages| && Stops(pages[i]);
    assert pages[1..][i - 1] == pages[i];
  }

  /** The index of the page at which the fetch loop ends. */
  function FirstStop(pages: seq<PageReply>): (k: nat)
    requires Terminates(pages)
    ensures k < |pages| && Stops(pages[k])
    ensures forall j :: 0 <= j < k ==> !Stops(pages[j])
    decreases |pages|
  {
    if Stops(pages[0]) then 0
    else
      TerminatesTail(pages);
      var k := FirstStop(pages[1..]);
      assert forall j :: 1 <= j < k + 1 ==> pages[j] == pages[1..][j - 1];
      k + 1
  }

  function Prepend(rows: seq<Row>, r: Result<seq<Row>>): Result<seq<Row>>
  {
    if r.Ok? then Ok(rows + r.value) else r
  }

  /** Reading a table page by page: the rows of each page in order, or the first request's error. */
  function ReadAll(pages: seq<PageReply>): Result<seq<Row>>
    requires Terminates(pages)
    decreases |pages|
  {
    match pages[0]
    case RequestFailed => Err("request failed")
    case PageOf(results, hasNext) =>
      if !hasNext || results == [] then Ok(results)
      else
        TerminatesTail(pages);
        Prepend(results, ReadAll(pages[1..]))
  }

  /** All the rows of a sequence of pages, in page order. */
  function RowsOf(pages: seq<PageReply>): seq<Row>
  {
    if pages == [] then []
    else (if pages[0].PageOf? then pages[0].results else []) + RowsOf(pages[1..])
  }

  /**
   * The read fails exactly when the page that ends the loop failed; otherwise it
   * returns the rows of every page up to and including that one, in page order.
   */
  lemma {:induction false} ReadAllSpec(pages: seq<PageReply>)
    requires Terminates(pages)
    ensures var k := FirstStop(pages);
            ReadAll(pages) == if pages[k].RequestFailed? then Err("request failed") else Ok(RowsOf(pages[..k + 1]))
    decreases |pages|
  {
    var k := FirstStop(pages);
    if !Stops(pages[0]) {
      TerminatesTail(pages);
      ReadAllSpec(pages[1..]);
      var k' := FirstStop(pages[1..]);
      assert k == k' + 1 by {
        assert forall j :: 0 <= j < k' ==> pages[j + 1] == pages[1..][j];
        assert pages[k' + 1] == pages[1..][k'];
      }
      assert pages[..k + 1][1..] == pages[1..][..k' + 1];
    } else if pages[0].PageOf? {
      assert k == 0;
      assert ReadAll(pages) == Ok(pages[0].results);
      assert pages[..1][0] == pages[0];
      assert pages[..1][1..] == [];
      var none: seq<PageReply> := [];
      assert RowsOf(none) == [];
      assert RowsOf(pages[..1]) == pages[0].results + RowsOf(none) == pages[0].results;
    }
  }

  /** One page further into the read, for rows already accumulated. */
  lemma ReadAllStep(pages: seq<PageReply>, i: nat, rows: seq<Row>)
    requires i < |pages| && Terminates(pages[i..]) && !Stops(pages[i])
    ensures Terminates(pages[i + 1..])
    ensures Prepend(rows, ReadAll(pages[i..])) == Prepend(rows + pages[i].results, ReadAll(pages[i + 1..]))
  {
    assert pages[i..][0] == pages[i];
    assert pages[i..][1..] == pages[i + 1..];
    TerminatesTail(pages[i..]);
    var tail := ReadAll(pages[i + 1..]);
    assert ReadAll(pages[i..]) == Prepend(pages[i].results, tail);
    assert tail.Ok? ==> rows + (pages[i].results + tail.value) == (rows + pages[i].results) + tail.value;
  }

  /**
   * `get_table_as_dataframe`: requests pages 1, 2, 3, ... of `size=200`, appends each
   * page's rows, and stops after a page with no next page or no rows; a request
   * error is re-raised with nothing returned.
   */
  method GetTable(c: Connector, tableId: string, pages: seq<PageReply>)
    returns (r: Result<seq<Row>>, requested: seq<string>)
    requires Terminates(pages)
    ensures r == ReadAll(pages)
    ensures RequestedPages(requested, c.baseUrl, tableId, FirstStop(pages) + 1)
  {
    var rows: seq<Row> := [];
    var page: nat := 1;
    requested := [];
    assert pages[0..] == pages;
    assert ReadAll(pages).Ok? ==> [] + ReadAll(pages).value == ReadAll(pages).value;
    while true
      invariant 1 <= page
      invariant page - 1 <= FirstStop(pages)
      invariant forall j :: 0 <= j < page - 1 ==> !Stops(pages[j])
      invariant Terminates(pages[page - 1..])
      invariant ReadAll(pages) == Prepend(rows, ReadAll(pages[page - 1..]))
      invariant RequestedPages(requested, c.baseUrl, tableId, page - 1)
      decreases FirstStop(pages) - (page - 1)
    {
      RequestedNext(requested, c.baseUrl, tableId, page - 1);
      requested := requested + [PageUrl(c.baseUrl, tableId, page)];
      var reply := pages[page - 1];
      assert pages[page - 1..][0] == reply;
      match reply {
        case RequestFailed =>
          return Err("request failed"), requested;
        case PageOf(results, hasNext) =>
          if !hasNext || results == [] {
            rows := rows + results;
            return Ok(rows), requested;
          }
          ReadAllStep(pages, page - 1, rows);
          rows := rows + results;
          page := page + 1;
      }
    }
  }

  function Flatten<T>(chunks: seq<seq<T>>): seq<T>
  {
    if chunks == [] then [] else chunks[0] + Flatten(chunks[1..])
  }

  /** `rows[i:i + size]` for i = 0, size, 2 * size, ... below `|rows|`. */
  function Chunks<T>(rows: seq<T>, size: nat): seq<seq<T>>
    requires size > 0
    decreases |rows|
  {
    if rows == [] then []
    else if |rows| <= size then [rows]
    else [rows[..size]] + Chunks(rows[size..], size)
  }

  /** The chunks put back together are the rows. */
  lemma {:induction false} ChunksFlatten<T>(rows: seq<T>, size: nat)
    requires size > 0
    ensures Flatten(Chunks(rows, size)) == rows
    decreases |rows|
  {
    if |rows| > size {
      ChunksFlatten(rows[size..], size);
      assert rows == rows[..size] + rows[size..];
    }
  }

  /** Every chunk holds between 1 and `size` rows, and all but the last hold exactly `size`. */
  lemma {:induction false} ChunksSizes<T>(rows: seq<T>, size: nat)
    requires size > 0
    ensures forall k :: 0 <= k < |Chunks(rows, size)| ==> 1 <= |Chunks(rows, size)[k]| <= size
    ensures forall k :: 0 <= k < |Chunks(rows, size)| - 1 ==> |Chunks(rows, size)[k]| == size
    decreases |rows|
  {
    if |rows| > size {
      ChunksSizes(rows[size..], size);
      var cs := Chunks(rows, size);
      assert forall k :: 1 <= k < |cs| ==> cs[k] == Chunks(rows[size..], size)[k - 1];
    }
  }

  /** There are `(n - 1) // 200 + 1` batches of `n > 0` rows, and none of no rows. */
  lemma {:induction false} ChunksCount<T>(rows: seq<T>)
    ensures |Chunks(rows, BatchSize)| == if rows == [] then 0 else (|rows| - 1) / BatchSize + 1
    decreases |rows|
  {
    if |rows| > BatchSize {
      ChunksCount(rows[BatchSize..]);
    }
  }

  /** Sending the batch that starts at `i` moves it from the batches still to send to those sent. */
  lemma ChunksStep<T>(sent: seq<seq<T>>, rows: seq<T>, i: nat, size: nat)
    requires size > 0 && i < |rows|
    ensures var end := if i + size <= |rows| then i + size else |rows|;
            sent + Chunks(rows[i..], size) == (sent + [rows[i..end]]) + Chunks(rows[end..], size)
  {
    var end := if i + size <= |rows| then i + size else |rows|;
    if |rows[i..]| > size {
      assert rows[i..][..size] == rows[i..end];
      assert rows[i..][size..] == rows[end..];
    } else {
      assert end == |rows|;
      assert rows[i..end] == rows[i..];
      assert rows[end..] == [];
    }
  }

  /** `accept` holds of every batch sent, the k-th being `sent[k]`. */
  predicate EveryBatch<T>(sent: seq<seq<T>>, accept: (nat, seq<T>) -> bool)
  {
    forall k :: 0 <= k < |sent| ==> accept(k, sent[k])
  }

  /** `accept` holds of one more batch throughout exactly when it held of the earlier ones and holds of it. */
  lemma EveryBatchSnoc<T>(sent: seq<seq<T>>, chunk: seq<T>, accept: (nat, seq<T>) -> bool)
    ensures EveryBatch(sent + [chunk], accept) <==> EveryBatch(sent, accept) && accept(|sent|, chunk)
  {
    var more := sent + [chunk];
    assert forall k :: 0 <= k < |sent| ==> more[k] == sent[k];
    assert more[|sent|] == chunk;
  }

  /**
   * `update_rows`: sends the rows in consecutive batches of at most 200, carrying on
   * after a failed batch; the result is true exactly when every batch succeeded
   * (so true, with nothing sent, for no rows). `accept(k, batch)` is the server's
   * answer to the k-th batch.
   */
  method UpdateRows<T>(c: Connector, tableId: string, rows: seq<T>, accept: (nat, seq<T>) -> bool)
    returns (ok: bool, sent: seq<seq<T>>)
    ensures sent == Chunks(rows, BatchSize)
    ensures ok <==> EveryBatch(sent, accept)
  {
    if rows == [] {
      return true, [];
    }
    ok := true;
    sent := [];
    var i := 0;
    while i < |rows|
      invariant 0 <= i <= |rows|
      invariant sent + Chunks(rows[i..], BatchSize) == Chunks(rows, BatchSize)
      invariant ok <==> EveryBatch(sent, accept)
      decreases |rows| - i
    {
      var end := if i + BatchSize <= |rows| then i + BatchSize else |rows|;
      var chunk := rows[i..end];
      ChunksStep(sent, rows, i, BatchSize);
      EveryBatchSnoc(sent, chunk, accept);
      var accepted := accept(|sent|, chunk);
      ok := ok && accepted;
      sent := sent + [chunk];
      i := end;
    }
    assert rows[i..] == [];
  }

  /**
   * Baserow's answer to one update batch as the error handler of `update_rows`
   * sees it: accepted, refused with an error status (the exception carries the
   * response), or failed with no response at all (a connection error or a timeout).
   */
  datatype BatchAnswer = Accepted | Refused | NoResponse

  /** The batch counts as a success exactly when Baserow accepted it. */
  function Accepts<T>(answer: (nat, seq<T>) -> BatchAnswer): (nat, seq<T>) -> bool
  {
    (k: nat, batch: seq<T>) => answer(k, batch) == Accepted
  }

  /** The batch got a response, whether it was accepted or refused. */
  function GotResponse<T>(answer: (nat, seq<T>) -> BatchAnswer): (nat, seq<T>) -> bool
  {
    (k: nat, batch: seq<T>) => answer(k, batch) != NoResponse
  }

  /** The index of the first batch from `j` on that got no response, or the number of batches. */
  function NoResponseFrom<T>(batches: seq<seq<T>>, answer: (nat, seq<T>) -> BatchAnswer, j: nat): (k: nat)
    requires j <= |batches|
    ensures j <= k <= |batches|
    ensures forall i :: j <= i < k ==> answer(i, batches[i]) != NoResponse
    ensures k < |batches| ==> answer(k, batches[k]) == NoResponse
    decreases |batches| - j
  {
    if j == |batches| || answer(j, batches[j]) == NoResponse then j
    else NoResponseFrom(batches, answer, j + 1)
  }

  /** The first batch without a response is pinned down by the answers before it. */
  lemma NoResponseAt<T>(batches: seq<seq<T>>, answer: (nat, seq<T>) -> BatchAnswer, m: nat)
    requires m <= |batches|
    requires forall i :: 0 <= i < m ==> answer(i, batches[i]) != NoResponse
    requires m == |batches| || answer(m, batches[m]) == NoResponse
    ensures NoResponseFrom(batches, answer, 0) == m
  {
  }

  /** The batches `update_rows` as written sends: all of them, or up to the first that got no response. */
  function AsWrittenSent<T>(batches: seq<seq<T>>, answer: (nat, seq<T>) -> BatchAnswer): seq<seq<T>>
  {
    var k := NoResponseFrom(batches, answer, 0);
    if k < |batches| then batches[..k + 1] else batches
  }

  /** What `update_rows` as written returns: it raises at a batch without a response, else reports success. */
  function AsWrittenResult<T>(batches: seq<seq<T>>, answer: (nat, seq<T>) -> BatchAnswer): Result<bool>
  {
    if NoResponseFrom(batches, answer, 0) < |batches| then Err("'NoneType' object has no attribute 'text'")
    else Ok(EveryBatch(batches, Accepts(answer)))
  }

  /**
   * `update_rows` as written: its error handler reads the text of the failed
   * request's response, so a batch that got no response raises out of the
   * handler and the batches after it are never sent. `UpdateRows` is the
   * version that logs the failure and carries on, as the handler's comment
   * says it should.
   */
  method UpdateRowsAsWritten<T>(c: Connector, tableId: string, rows: seq<T>, answer: (nat, seq<T>) -> BatchAnswer)
    returns (r: Result<bool>, sent: seq<seq<T>>)
    ensures r == AsWrittenResult(Chunks(rows, BatchSize), answer)
    ensures sent == AsWrittenSent(Chunks(rows, BatchSize), answer)
  {
    if rows == [] {
      AsWrittenAgrees<T>([], answer);
      return Ok(true), [];
    }
    var ok := true;
    sent := [];
    var i := 0;
    while i < |rows|
      invariant 0 <= i <= |rows|
      invariant sent + Chunks(rows[i..], BatchSize) == Chunks(rows, BatchSize)
      invariant EveryBatch(sent, GotResponse(answer))
      invariant ok <==> EveryBatch(sent, Accepts(answer))
      decreases |rows| - i
    {
      var end := if i + BatchSize <= |rows| then i + BatchSize else |rows|;
      var chunk := rows[i..end];
      ChunksStep(sent, rows, i, BatchSize);
      var a := answer(|sent|, chunk);
      if a == NoResponse {
        AsWrittenStep(sent, chunk, Chunks(rows[end..], BatchSize), answer);
        return Err("'NoneType' object has no attribute 'text'"), sent + [chunk];
      }
      EveryBatchSnoc(sent, chunk, Accepts(answer));
      EveryBatchSnoc(sent, chunk, GotResponse(answer));
      ok := ok && a == Accepted;
      sent := sent + [chunk];
      i := end;
    }
    assert rows[i..] == [] && sent == Chunks(rows, BatchSize);
    AsWrittenAgrees(sent, answer);
    r := Ok(ok);
  }

  /** A batch that got no response, after batches that all got one, is where the code as written raises. */
  lemma AsWrittenStep<T>(sent: seq<seq<T>>, chunk: seq<T>, rest: seq<seq<T>>, answer: (nat, seq<T>) -> BatchAnswer)
    requires EveryBatch(sent, GotResponse(answer)) && answer(|sent|, chunk) == NoResponse
    ensures AsWrittenResult((sent + [chunk]) + rest, answer) == Err("'NoneType' object has no attribute 'text'")
    ensures AsWrittenSent((sent + [chunk]) + rest, answer) == sent + [chunk]
  {
    var all := (sent + [chunk]) + rest;
    assert forall j :: 0 <= j < |sent| ==> all[j] == sent[j];
    assert all[|sent|] == chunk;
    NoResponseAt(all, answer, |sent|);
    assert all[..|sent| + 1] == sent + [chunk];
  }

  /** When every batch got a response, the code as written sends all of them and reports what `UpdateRows` reports. */
  lemma AsWrittenAgrees<T>(batches: seq<seq<T>>, answer: (nat, seq<T>) -> BatchAnswer)
    requires EveryBatch(batches, GotResponse(answer))
    ensures AsWrittenSent(batches, answer) == batches
    ensures AsWrittenResult(batches, answer) == Ok(EveryBatch(batches, Accepts(answer)))
  {
    NoResponseAt(batches, answer, |batches|);
  }

  /**
   * 201 rows make two batches; when the first gets no response, the code as
   * written raises and the second batch is never sent, while `UpdateRows`
   * sends both.
   */
  lemma NoResponseSkipsBatches()
    ensures var rows := seq(201, i => i);
            var answer := (k: nat, batch: seq<int>) => if k == 0 then NoResponse else Accepted;
            var all := Chunks(rows, BatchSize);
            && |all| == 2
            && AsWrittenResult(all, answer).Err?
            && AsWrittenSent(all, answer) == all[..1]
  {
  }
}
