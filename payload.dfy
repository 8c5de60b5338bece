/**
 * The payload `main` sends to Baserow: one item per update, holding the row id,
 * the Enrichment Status (Success unless the update says otherwise), a
 * timestamp, and those scraped fields that are truthy, under the column names
 * of the catalogue table.
 */
module Payload {
  import opened Wrappers
  import opened Dicts
  import opened Text
  import opened Amazon
  import opened Enrichment

  const KeyLastEnriched := "Last Enriched At"
  const KeyAllImages := "All Image URLs"
  const KeyFirstImage := "Product Image 1"

  /** The scraped fields `main` copies under their own names when truthy. */
  predicate CopiedColumn(k: string)
  {
    k == KeyTitle || k == KeyBrand || k == KeyPrice || k == KeyRating || k == KeyReviewCount
    || k == KeyBullets || k == KeyDescription
  }

  /** Every column a payload item may write. */
  const PayloadKeys: set<string> :=
    {KeyId, KeyEnrichmentStatus, KeyLastEnriched, KeyListingStatus, KeyTitle, KeyBrand, KeyPrice, KeyRating,
     KeyReviewCount, KeyBullets, KeyDescription, KeyAllImages, KeyFirstImage}

  /** What the payload step needs of an update: an id, and Image URLs that are text when present. */
  predicate Prepared(u: Dict)
  {
    KeyId in u && !Get(u, KeyImages).Int?
  }

  /** `urls.split(',')[0].strip()`: the first image of the comma-joined list. */
  function FirstImage(urls: string): string
  {
    Strip(BeforeFirst(urls, ","))
  }

  /**
   * What an item for update `u` holds in column `k`, column by column: the id,
   * the Enrichment Status ('Success' when the update has none) and the stamp
   * always; the Status as Listing Status, each copied field, and the image list
   * with its first entry only when truthy; nothing in any other column.
   */
  function ItemColumn(u: Dict, stamp: string, k: string): Option<Value>
    requires Prepared(u)
  {
    if k == KeyId then Some(u[KeyId])
    else if k == KeyEnrichmentStatus then Some(GetOr(u, KeyEnrichmentStatus, Text(LabelSuccess)))
    else if k == KeyLastEnriched then Some(Text(stamp))
    else if k == KeyListingStatus then (if Truthy(Get(u, KeyStatus)) then Some(u[KeyStatus]) else None)
    else if CopiedColumn(k) then (if Truthy(Get(u, k)) then Some(u[k]) else None)
    else if k == KeyAllImages then (if Truthy(Get(u, KeyImages)) then Some(u[KeyImages]) else None)
    else if k == KeyFirstImage then
      (if Truthy(Get(u, KeyImages)) then Some(Text(FirstImage(u[KeyImages].s))) else None)
    else None
  }

  /** One guarded copy of `main`'s payload step: `from`'s value goes under `to` when it is truthy. */
  function CopyAs(p: Dict, u: Dict, from: string, to: string): Dict
  {
    if Truthy(Get(u, from)) then p[to := u[from]] else p
  }

  lemma CopyAsAt(p: Dict, u: Dict, from: string, to: string, k: string)
    ensures var r := CopyAs(p, u, from, to);
            && (k in r <==> k in p || (k == to && Truthy(Get(u, from))))
            && (k in r ==> r[k] == if k == to && Truthy(Get(u, from)) then u[from] else p[k])
  {
  }

  /**
   * One payload item for update `u`, stamped `stamp`, built as `main` builds
   * it: the id, the Enrichment Status and the timestamp, then the guarded
   * copies, then the images.
   */
  function PayloadItem(u: Dict, stamp: string): Dict
    requires Prepared(u)
  {
    WithImages(CopyFields(Header(u, stamp), u), u)
  }

  /** `payload_item = {...}` and its Listing Status line. */
  function Header(u: Dict, stamp: string): Dict
    requires KeyId in u
  {
    var p := map[KeyId := u[KeyId], KeyEnrichmentStatus := GetOr(u, KeyEnrichmentStatus, Text(LabelSuccess)),
                 KeyLastEnriched := Text(stamp)];
    CopyAs(p, u, KeyStatus, KeyListingStatus)
  }

  /** The seven guarded copies of the scraped fields, each under its own name. */
  function CopyFields(p: Dict, u: Dict): Dict
  {
    var p := CopyAs(p, u, KeyTitle, KeyTitle);
    var p := CopyAs(p, u, KeyBrand, KeyBrand);
    var p := CopyAs(p, u, KeyPrice, KeyPrice);
    var p := CopyAs(p, u, KeyRating, KeyRating);
    var p := CopyAs(p, u, KeyReviewCount, KeyReviewCount);
    var p := CopyAs(p, u, KeyBullets, KeyBullets);
    CopyAs(p, u, KeyDescription, KeyDescription)
  }

  /** For truthy Image URLs, adds the whole list and its first entry; otherwise leaves `p` as it is. */
  function WithImages(p: Dict, u: Dict): Dict
    requires !Get(u, KeyImages).Int?
  {
    if Truthy(Get(u, KeyImages)) then
      p[KeyAllImages := u[KeyImages]][KeyFirstImage := Text(FirstImage(u[KeyImages].s))]
    else p
  }

  lemma HeaderAt(u: Dict, stamp: string, k: string)
    requires KeyId in u
    ensures var p := Header(u, stamp);
            var listed := k == KeyListingStatus && Truthy(Get(u, KeyStatus));
            && (k in p <==> k == KeyId || k == KeyEnrichmentStatus || k == KeyLastEnriched || listed)
            && (k == KeyId ==> p[k] == u[KeyId])
            && (k == KeyEnrichmentStatus ==> p[k] == GetOr(u, KeyEnrichmentStatus, Text(LabelSuccess)))
            && (k == KeyLastEnriched ==> p[k] == Text(stamp))
            && (listed ==> p[k] == u[KeyStatus])
  {
    var p := map[KeyId := u[KeyId], KeyEnrichmentStatus := GetOr(u, KeyEnrichmentStatus, Text(LabelSuccess)),
                 KeyLastEnriched := Text(stamp)];
    CopyAsAt(p, u, KeyStatus, KeyListingStatus, k);
  }

  lemma CopyFieldsAt(p: Dict, u: Dict, k: string)
    ensures var r := CopyFields(p, u);
            var copied := CopiedColumn(k) && Truthy(Get(u, k));
            && (k in r <==> k in p || copied)
            && (k in r ==> r[k] == if copied then u[k] else p[k])
  {
    var p1 := CopyAs(p, u, KeyTitle, KeyTitle);
    var p2 := CopyAs(p1, u, KeyBrand, KeyBrand);
    var p3 := CopyAs(p2, u, KeyPrice, KeyPrice);
    var p4 := CopyAs(p3, u, KeyRating, KeyRating);
    var p5 := CopyAs(p4, u, KeyReviewCount, KeyReviewCount);
    var p6 := CopyAs(p5, u, KeyBullets, KeyBullets);
    CopyAsAt(p, u, KeyTitle, KeyTitle, k);
    CopyAsAt(p1, u, KeyBrand, KeyBrand, k);
    CopyAsAt(p2, u, KeyPrice, KeyPrice, k);
    CopyAsAt(p3, u, KeyRating, KeyRating, k);
    CopyAsAt(p4, u, KeyReviewCount, KeyReviewCount, k);
    CopyAsAt(p5, u, KeyBullets, KeyBullets, k);
    CopyAsAt(p6, u, KeyDescription, KeyDescription, k);
  }

  lemma WithImagesAt(p: Dict, u: Dict, k: string)
    requires !Get(u, KeyImages).Int?
    ensures var r := WithImages(p, u);
            var shown := (k == KeyAllImages || k == KeyFirstImage) && Truthy(Get(u, KeyImages));
            && (k in r <==> k in p || shown)
            && (k in r && !shown ==> r[k] == p[k])
            && (shown && k == KeyAllImages ==> r[k] == u[KeyImages])
            && (shown && k == KeyFirstImage ==> r[k] == Text(FirstImage(u[KeyImages].s)))
  {
  }

  /** The item `main` builds holds, in every column, what `ItemColumn` says. */
  lemma PayloadItemAt(u: Dict, stamp: string, k: string)
    requires Prepared(u)
    ensures var p := PayloadItem(u, stamp);
            && (k in p <==> ItemColumn(u, stamp, k).Some?)
            && (k in p ==> p[k] == ItemColumn(u, stamp, k).value)
  {
    var h := Header(u, stamp);
    HeaderAt(u, stamp, k);
    CopyFieldsAt(h, u, k);
    WithImagesAt(CopyFields(h, u), u, k);
  }

  /** An item writes no column outside the payload's. */
  lemma PayloadColumns(u: Dict, stamp: string)
    requires Prepared(u)
    ensures PayloadItem(u, stamp).Keys <= PayloadKeys
  {
    forall k | k in PayloadItem(u, stamp) ensures k in PayloadKeys {
      PayloadItemAt(u, stamp, k);
    }
  }

  /** The payload loop of `main`: one item per update, in order, the i-th stamped `clock(i)`. */
  method BuildPayload(updates: seq<Dict>, clock: nat -> string) returns (payload: seq<Dict>)
    requires forall k :: 0 <= k < |updates| ==> Prepared(updates[k])
    ensures |payload| == |updates|
    ensures forall k :: 0 <= k < |updates| ==> payload[k] == PayloadItem(updates[k], clock(k))
  {
    payload := [];
    for i := 0 to |updates|
      invariant |payload| == i
      invariant forall k :: 0 <= k < i ==> payload[k] == PayloadItem(updates[k], clock(k))
    {
      payload := payload + [PayloadItem(updates[i], clock(i))];
    }
  }

  /**
   * A missing page's update says Listing Status 'Deleted', but the payload only
   * carries Listing Status over from Status, so the item for it holds just the
   * id, 'ASIN Not Found' and the timestamp.
   */
  lemma NotFoundPayload(id: int, stamp: string)
    ensures var p := PayloadItem(NotFoundUpdate(id), stamp);
            && p.Keys == {KeyId, KeyEnrichmentStatus, KeyLastEnriched}
            && Get(p, KeyEnrichmentStatus) == Text(LabelNotFound)
            && KeyListingStatus !in p
  {
    var u := NotFoundUpdate(id);
    var p := PayloadItem(u, stamp);
    NotFoundKeys(id);
    forall k ensures k in p <==> k in {KeyId, KeyEnrichmentStatus, KeyLastEnriched} {
      PayloadItemAt(u, stamp, k);
    }
    PayloadItemAt(u, stamp, KeyEnrichmentStatus);
  }

  /** The item for a row whose retry failed holds just the id, 'Scrape Failed' and the timestamp. */
  lemma FailedPayload(id: int, stamp: string)
    ensures var p := PayloadItem(FailedUpdate(id), stamp);
            && p.Keys == {KeyId, KeyEnrichmentStatus, KeyLastEnriched}
            && Get(p, KeyEnrichmentStatus) == Text(LabelFailed)
  {
    var u := FailedUpdate(id);
    var p := PayloadItem(u, stamp);
    FailedKeys(id);
    forall k ensures k in p <==> k in {KeyId, KeyEnrichmentStatus, KeyLastEnriched} {
      PayloadItemAt(u, stamp, k);
    }
    PayloadItemAt(u, stamp, KeyEnrichmentStatus);
  }

  /** Every update a run produces is fit for the payload step. */
  lemma OutcomePrepared(t: Target, first: Reply, second: Reply)
    ensures Prepared(Outcome(t, first, second))
  {
    OutcomeMeaning(t, first, second);
    var u := Outcome(t, first, second);
    if ReportsTitle(first) && !ReportsNotFound(first) {
      FoundImages(first, t.id);
    } else if !Settles(first) && ReportsTitle(second) && !ReportsNotFound(second) {
      FoundImages(second, t.id);
    }
  }

  /** Every update of a run has an id and text (or no) Image URLs, so the payload step never raises. */
  lemma UpdatesPrepared(targets: seq<Target>, scrape: Scraper)
    ensures forall k :: 0 <= k < |Updates(targets, scrape)| ==> Prepared(Updates(targets, scrape)[k])
  {
    var all := Updates(targets, scrape);
    var rows := RowUpdates(targets, scrape, |targets|);
    OneUpdatePerRow(targets, scrape);
    forall k | 0 <= k < |all| ensures Prepared(all[k]) {
      assert all[k] in multiset(all);
      assert all[k] in multiset(rows);
      var i :| 0 <= i < |rows| && rows[i] == all[k];
      OutcomePrepared(targets[i], scrape(i, targets[i].asin), scrape(RetryCall(targets, scrape, i), targets[i].asin));
    }
  }

  lemma FoundImages(reply: Reply, id: int)
    requires ReportsTitle(reply)
    ensures !Get(ScrapeDict(reply.scrape)[KeyId := Int(id)], KeyImages).Int?
    ensures !Get(ScrapeDict(reply.scrape)[KeyId := Int(id)][KeyEnrichmentStatus := Text(LabelRetrySuccess)], KeyImages).Int?
  {
  }

  /**
   * The payload item of row `i` carries the label of the row's verdict, and a
   * Listing Status exactly when the row was scraped with a title; that status
   * is then 'Active'.
   */
  lemma RowPayload(targets: seq<Target>, scrape: Scraper, i: nat, stamp: string)
    requires i < |targets|
    ensures Prepared(RowUpdate(targets, scrape, i))
    ensures var p := PayloadItem(RowUpdate(targets, scrape, i), stamp);
            var v := RowVerdict(targets, scrape, i);
            && Get(p, KeyId) == Int(targets[i].id)
            && Get(p, KeyEnrichmentStatus) == Text(Label(v))
            && (KeyListingStatus in p <==> v == Success || v == SuccessOnRetry)
            && (KeyListingStatus in p ==> p[KeyListingStatus] == Text("Active"))
  {
    var first := scrape(i, targets[i].asin);
    var second := scrape(RetryCall(targets, scrape, i), targets[i].asin);
    OutcomeMeaning(targets[i], first, second);
    OutcomePrepared(targets[i], first, second);
    OutcomeStatus(targets[i], first, second);
    var u := RowUpdate(targets, scrape, i);
    PayloadItemAt(u, stamp, KeyId);
    PayloadItemAt(u, stamp, KeyEnrichmentStatus);
    PayloadItemAt(u, stamp, KeyListingStatus);
  }

  /** The Status of a run's update is truthy exactly for a titled page, and then it is 'Active'. */
  lemma OutcomeStatus(t: Target, first: Reply, second: Reply)
    ensures var u := Outcome(t, first, second);
            var v := VerdictOf(first, second);
            && (Truthy(Get(u, KeyStatus)) <==> v == Success || v == SuccessOnRetry)
            && (Truthy(Get(u, KeyStatus)) ==> u[KeyStatus] == Text("Active"))
  {
    if ReportsNotFound(first) {
    } else if ReportsTitle(first) {
      FoundStatus(first, t.id);
    } else if ReportsNotFound(second) {
    } else if ReportsTitle(second) {
      FoundStatus(second, t.id);
    }
  }

  lemma FoundStatus(reply: Reply, id: int)
    requires ReportsTitle(reply)
    ensures Get(ScrapeDict(reply.scrape)[KeyId := Int(id)], KeyStatus) == Text("Active")
    ensures Get(ScrapeDict(reply.scrape)[KeyId := Int(id)][KeyEnrichmentStatus := Text(LabelRetrySuccess)], KeyStatus) == Text("Active")
  {
  }

  /**
   * Product Image 1 is one of the scraped image URLs, stripped, provided no URL
   * contains a comma (the join uses ", " and the split cuts at ',').
   */
  lemma FirstImageListed(v: Option<string>, images: Option<set<string>>)
    requires ImageUrlsFrom(v, images) && v.Some?
    requires forall url :: url in images.value ==> ',' !in url
    ensures exists url :: url in images.value && FirstImage(v.value) == Strip(url)
  {
    var order :| IsListing(order, images.value) && v == Some(Join(order, ", "));
    assert order != [] by {
      var x :| x in images.value;
      assert x in multiset(order);
    }
    assert order[0] in multiset(images.value);
    forall p | p in order ensures ',' !in p {
      assert p in multiset(images.value);
    }
    FirstOfJoin(order, ", ");
  }
}
