/**
 * The product-page scraper. The browser is not modelled: what it would read from
 * a product page is given as a `Page` record of optional strings, `None` standing
 * for an element lookup that raised.
 */
module Amazon {
  import opened Wrappers
  import opened Dicts
  import opened Text

  const DefaultDomain := "amazon.in"
  const HiResSuffix := "._AC_SL1500_.jpg"

  // Keys of the dictionary `scrape_product` returns.
  const KeyAsin := "ASIN"
  const KeyUrl := "URL"
  const KeyTitle := "Title"
  const KeyBrand := "Brand"
  const KeyPrice := "Price"
  const KeyRating := "Rating"
  const KeyReviewCount := "Review Count"
  const KeyBullets := "Bullet Points"
  const KeyImages := "Image URLs"
  const KeyDescription := "Product Description"
  const KeyStatus := "Status"
  const KeyPageStatus := "page_status"

  /** What the browser would read from one loaded product page. */
  datatype Page = Page(
    title: string,                    // the document title
    productTitle: Option<string>,     // text of #productTitle (None: the wait timed out)
    byline: Option<string>,           // text of #bylineInfo
    priceWhole: Option<string>,       // text of .a-price-whole
    priceSymbol: Option<string>,      // text of .a-price-symbol
    rating: Option<string>,           // title attribute of #acrPopover
    reviewCount: Option<string>,      // text of #acrCustomerReviewText
    bullets: Option<seq<string>>,     // texts of the li items of #feature-bullets
    thumbnails: seq<Option<string>>,  // src attribute of each `li.thumbnail img`
    landingImage: Option<string>,     // src attribute of #landingImage
    description: Option<string>)      // text of #productDescription

  /** The fields of a found product page; `None` where a lookup failed. */
  datatype Product = Product(
    asin: string,
    url: string,
    title: Option<string>,
    brand: Option<string>,
    price: Option<string>,
    rating: Option<string>,
    reviewCount: Option<string>,
    bulletPoints: Option<string>,
    imageUrls: Option<string>,
    description: Option<string>)

  /** What `scrape_product` returns. */
  datatype Scrape = PageNotFound(asin: string) | PageFound(product: Product)

  /** One call of `scrape_product`: it raised, or it returned a result. */
  datatype Reply = Raised | Returned(scrape: Scrape)

  function OptText(o: Option<string>): Value
  {
    if o.Some? then Text(o.value) else Null
  }

  /**
   * The Python dictionary `scrape_product` returns: exactly ASIN and page_status
   * for a missing page, and every field plus Status for a found one, where Status
   * is Active exactly when the title is non-empty.
   */
  function ScrapeDict(s: Scrape): (d: Dict)
    ensures KeyAsin in d && d[KeyAsin] == Text(if s.PageNotFound? then s.asin else s.product.asin)
    ensures KeyPageStatus in d && d[KeyPageStatus] == Text(if s.PageNotFound? then "not_found" else "found")
    ensures s.PageFound? ==> KeyTitle in d && KeyStatus in d && KeyImages in d
    ensures s.PageFound? ==> (d[KeyStatus] == Text("Active") <==> Truthy(d[KeyTitle]))
    ensures s.PageFound? ==> (d[KeyStatus] == Text("Inactive") <==> !Truthy(d[KeyTitle]))
  {
    match s
    case PageNotFound(asin) =>
      map[KeyAsin := Text(asin), KeyPageStatus := Text("not_found")]
    case PageFound(p) =>
      map[KeyAsin := Text(p.asin), KeyUrl := Text(p.url),
          KeyTitle := OptText(p.title), KeyBrand := OptText(p.brand), KeyPrice := OptText(p.price),
          KeyRating := OptText(p.rating), KeyReviewCount := OptText(p.reviewCount),
          KeyBullets := OptText(p.bulletPoints), KeyImages := OptText(p.imageUrls),
          KeyDescription := OptText(p.description),
          KeyStatus := Text(if OptText(p.title) != Null && p.title.value != "" then "Active" else "Inactive"),
          KeyPageStatus := Text("found")]
  }

  /** The columns of `scrape_product`'s dictionary: ASIN and page_status for a missing page, all of them for a found one. */
  lemma ScrapeDictColumns(s: Scrape)
    ensures s.PageNotFound? ==> ScrapeDict(s).Keys == {KeyAsin, KeyPageStatus}
    ensures s.PageFound? ==> ScrapeDict(s).Keys == {KeyAsin, KeyUrl, KeyTitle, KeyBrand, KeyPrice, KeyRating, KeyReviewCount,
                                                     KeyBullets, KeyImages, KeyDescription, KeyStatus, KeyPageStatus}
  {
  }

  /** The page is the site's "not found" page, judged by its lower-cased title. */
  predicate IsNotFoundTitle(title: string)
  {
    Contains(Lower(title), "page not found") || Contains(Lower(title), "sorry! we couldn't find that page")
  }

  /** `.text.strip()` of an element whose lookup may have failed. */
  function StripText(o: Option<string>): Option<string>
  {
    if o.Some? then Some(Strip(o.value)) else None
  }

  /** The price: the stripped symbol followed by the stripped whole part, or None if either is missing. */
  function PriceText(symbol: Option<string>, whole: Option<string>): (r: Option<string>)
    ensures r.Some? <==> symbol.Some? && whole.Some?
    ensures r.Some? ==> (&& |r.value| == |Strip(symbol.value)| + |Strip(whole.value)|
                         && r.value[..|Strip(symbol.value)|] == Strip(symbol.value)
                         && r.value[|Strip(symbol.value)|..] == Strip(whole.value))
  {
    if symbol.Some? && whole.Some? then Some(Strip(symbol.value) + Strip(whole.value)) else None
  }

  /** The stripped bullet texts, leaving out those that strip to nothing. */
  function StrippedNonBlank(items: seq<string>): (r: seq<string>)
    ensures |r| <= |items|
  {
    if items == [] then []
    else
      var rest := StrippedNonBlank(items[1..]);
      var s := Strip(items[0]);
      if s == "" then rest else [s] + rest
  }

  /**
   * The kept bullets are exactly the non-blank stripped ones: each is
   * non-empty and already stripped, and every bullet that strips to something
   * is kept in its stripped form.
   */
  lemma {:induction false} StrippedNonBlankMeaning(items: seq<string>)
    ensures forall x :: x in StrippedNonBlank(items) ==> x != "" && Strip(x) == x
    ensures forall x :: x in items && Strip(x) != "" ==> Strip(x) in StrippedNonBlank(items)
  {
    if items != [] {
      var r := StrippedNonBlank(items);
      var rest := StrippedNonBlank(items[1..]);
      StrippedNonBlankMeaning(items[1..]);
      StripIdempotent(items[0]);
      forall x | x in r ensures x != "" && Strip(x) == x {
        if x !in rest {
          assert x == Strip(items[0]);
        }
      }
      forall x | x in items && Strip(x) != "" ensures Strip(x) in r {
        if x != items[0] {
          assert x in items[1..];
        }
      }
    }
  }

  /** Filtering two runs of bullets filters each in turn: page order is kept. */
  lemma {:induction false} StrippedNonBlankAppend(a: seq<string>, b: seq<string>)
    ensures StrippedNonBlank(a + b) == StrippedNonBlank(a) + StrippedNonBlank(b)
  {
    if a == [] {
      assert a + b == b;
    } else {
      assert (a + b)[0] == a[0];
      assert (a + b)[1..] == a[1..] + b;
      StrippedNonBlankAppend(a[1..], b);
    }
  }

  /** One bullet is kept, stripped, exactly when it strips to something. */
  lemma StrippedNonBlankOne(x: string)
    ensures StrippedNonBlank([x]) == if Strip(x) == "" then [] else [Strip(x)]
  {
    assert [x][1..] == [];
  }

  /** The Bullet Points text: the non-blank stripped bullets, one per line. */
  function BulletText(items: seq<string>): string
  {
    Join(StrippedNonBlank(items), "\n")
  }

  /** Splitting the Bullet Points text on newlines gives back the non-blank bullets. */
  lemma BulletLines(items: seq<string>)
    requires StrippedNonBlank(items) != []
    requires forall x :: x in StrippedNonBlank(items) ==> '\n' !in x
    ensures Split(BulletText(items), '\n') == StrippedNonBlank(items)
  {
    SplitJoin(StrippedNonBlank(items), '\n');
  }

  /** A thumbnail URL cut before its first "._" and given the full-size suffix. */
  function Normalized(src: string): (r: string)
    ensures |r| >= |HiResSuffix| && r[|r| - |HiResSuffix|..] == HiResSuffix
  {
    BeforeFirst(src, "._") + HiResSuffix
  }

  /** A normalised URL keeps the part before "._" of the original. */
  lemma NormalizedStem(src: string)
    ensures BeforeFirst(Normalized(src), "._") == BeforeFirst(src, "._")
  {
    StemHasNoMarker(src);
    NormalizedMarker(src);
    BeforeFirstAt(Normalized(src), "._", |BeforeFirst(src, "._")|);
  }

  /** A normalised URL starts with the kept part of the original, followed by "._". */
  lemma NormalizedMarker(src: string)
    ensures var p := BeforeFirst(src, "._");
            && |p| <= |Normalized(src)| && Normalized(src)[..|p|] == p
            && OccursAt(Normalized(src), "._", |p|)
  {
    var p := BeforeFirst(src, "._");
    var s := Normalized(src);
    assert s == p + HiResSuffix;
    assert s[|p|..|p| + 2] == [s[|p|], s[|p| + 1]] == "._";
    assert s[..|p|] == p;
  }

  /** No "._" starts inside the kept part of a normalised URL. */
  lemma StemHasNoMarker(src: string)
    ensures forall j :: 0 <= j < |BeforeFirst(src, "._")| ==> !OccursAt(Normalized(src), "._", j)
  {
    var p := BeforeFirst(src, "._");
    var s := Normalized(src);
    assert src == p + src[|p|..];
    forall j | 0 <= j < |p| ensures !OccursAt(s, "._", j) {
      if j + 2 <= |p| {
        OccursInPrefix(p, HiResSuffix, "._", j);
        OccursInPrefix(p, src[|p|..], "._", j);
      } else {
        assert s[j + 1] == HiResSuffix[0] == '.';
        assert s[j..j + 2][1] == s[j + 1];
      }
    }
  }

  /** Normalising a URL twice is normalising it once. */
  lemma NormalizedIdempotent(src: string)
    ensures Normalized(Normalized(src)) == Normalized(src)
  {
    NormalizedStem(src);
  }

  /** The set of normalised thumbnail URLs, or None when a thumbnail has no src (the lookup raises). */
  function ThumbnailSet(srcs: seq<Option<string>>): Option<set<string>>
  {
    if forall i :: 0 <= i < |srcs| ==> srcs[i].Some?
    then Some(set i | 0 <= i < |srcs| && srcs[i].Some? :: Normalized(srcs[i].value))
    else None
  }

  /** The image set: the thumbnails, or the landing image alone when there are none. */
  function ImageSet(page: Page): Option<set<string>>
  {
    match ThumbnailSet(page.thumbnails)
    case None => None
    case Some(s) =>
      if s != {} then Some(s)
      else if page.landingImage.Some? then Some({page.landingImage.value})
      else None
  }

  /** `order` lists every element of `s` exactly once. */
  ghost predicate IsListing(order: seq<string>, s: set<string>)
  {
    multiset(order) == multiset(s)
  }

  /** The Image URLs text joins some listing of the image set with ", ", or is None without one. */
  ghost predicate ImageUrlsFrom(v: Option<string>, images: Option<set<string>>)
  {
    if images.None? || images.value == {} then v.None?
    else exists order :: IsListing(order, images.value) && v == Some(Join(order, ", "))
  }

  /** Every field of a found page, each from its own lookup. */
  ghost predicate FieldsFrom(p: Product, asin: string, baseUrl: string, page: Page)
  {
    && p.asin == asin
    && p.url == baseUrl + asin
    && p.title == StripText(page.productTitle)
    && p.brand == StripText(page.byline)
    && p.price == PriceText(page.priceSymbol, page.priceWhole)
    && p.rating == StripText(page.rating)
    && p.reviewCount == StripText(page.reviewCount)
    && p.bulletPoints == (if page.bullets.Some? then Some(BulletText(page.bullets.value)) else None)
    && ImageUrlsFrom(p.imageUrls, ImageSet(page))
    && p.description == StripText(page.description)
  }

  /** What scraping `asin` from `page` yields. */
  ghost predicate Describes(s: Scrape, asin: string, baseUrl: string, page: Page)
  {
    if IsNotFoundTitle(page.title) then s == PageNotFound(asin)
    else s.PageFound? && FieldsFrom(s.product, asin, baseUrl, page)
  }

  /** The thumbnail loop: adds each normalised src to a set, stopping at a src that is missing. */
  method CollectThumbnails(srcs: seq<Option<string>>) returns (o: Option<set<string>>)
    ensures o == ThumbnailSet(srcs)
  {
    var urls: set<string> := {};
    var i := 0;
    while i < |srcs|
      invariant 0 <= i <= |srcs|
      invariant forall j :: 0 <= j < i ==> srcs[j].Some?
      invariant urls == set j | 0 <= j < i && srcs[j].Some? :: Normalized(srcs[j].value)
    {
      if srcs[i].None? {
        return None;
      }
      ghost var before := set j | 0 <= j < i && srcs[j].Some? :: Normalized(srcs[j].value);
      ghost var after := set j | 0 <= j < i + 1 && srcs[j].Some? :: Normalized(srcs[j].value);
      assert after == before + {Normalized(srcs[i].value)};
      urls := urls + {Normalized(srcs[i].value)};
      i := i + 1;
    }
    o := Some(urls);
  }

  /** Lists the elements of a set in some order (Python's `list(s)`). */
  method ListOf(s: set<string>) returns (order: seq<string>)
    ensures IsListing(order, s)
  {
    var rest := s;
    order := [];
    while rest != {}
      invariant rest <= s
      invariant multiset(order) + multiset(rest) == multiset(s)
      decreases |rest|
    {
      var u :| u in rest;
      assert rest == (rest - {u}) + {u};
      order := order + [u];
      rest := rest - {u};
    }
  }

  /** Builds the image set from the thumbnails (or the landing image) and joins some listing of it. */
  method CollectImageUrls(page: Page) returns (v: Option<string>)
    ensures ImageUrlsFrom(v, ImageSet(page))
  {
    var thumbs := CollectThumbnails(page.thumbnails);
    if thumbs.None? {
      return None;
    }
    var urls := thumbs.value;
    if urls == {} {
      if page.landingImage.None? {
        return None;
      }
      urls := {page.landingImage.value};
    }
    assert ImageSet(page) == Some(urls);
    var order := ListOf(urls);
    v := Some(Join(order, ", "));
  }

  /** The scraper: its product-page base URL and whether the browser started. */
  class AmazonScraper {
    const domain: string
    const baseUrl: string
    const hasDriver: bool
    /** Number of times the browser has been told to quit. */
    var quitCalls: nat

    /** `domainSetting` is the configured domain, if any; `driverStarts` says whether the browser came up. */
    constructor (domainSetting: Option<string>, driverStarts: bool)
      ensures domain == (if domainSetting.Some? then domainSetting.value else DefaultDomain)
      ensures baseUrl == "https://www." + domain + "/dp/"
      ensures hasDriver == driverStarts && quitCalls == 0
    {
      domain := if domainSetting.Some? then domainSetting.value else DefaultDomain;
      baseUrl := "https://www." + (if domainSetting.Some? then domainSetting.value else DefaultDomain) + "/dp/";
      hasDriver := driverStarts;
      quitCalls := 0;
    }

    /**
     * Scrapes one product. `shown` is the page the browser shows for the
     * product URL, or None when navigating there raised.
     */
    method ScrapeProduct(asin: Value, shown: Option<Page>) returns (r: Reply)
      ensures r == Raised <==> !hasDriver || !asin.Text? || shown.None?
      ensures r.Returned? ==> Describes(r.scrape, asin.s, baseUrl, shown.value)
    {
      if !hasDriver {
        return Raised;
      }
      if !asin.Text? {
        // `base_url + asin` raises a TypeError for a cell that is not a string
        return Raised;
      }
      var url := baseUrl + asin.s;
      if shown.None? {
        return Raised;
      }
      var page := shown.value;
      if IsNotFoundTitle(page.title) {
        return Returned(PageNotFound(asin.s));
      }
      var title := StripText(page.productTitle);
      var brand := StripText(page.byline);
      var price := PriceText(page.priceSymbol, page.priceWhole);
      var rating := StripText(page.rating);
      var reviewCount := StripText(page.reviewCount);
      var bullets := if page.bullets.Some? then Some(BulletText(page.bullets.value)) else None;
      var images := CollectImageUrls(page);
      var description := StripText(page.description);
      r := Returned(PageFound(Product(asin.s, url, title, brand, price, rating, reviewCount,
                                      bullets, images, description)));
    }

    /** Closes the browser, if there is one. */
    method QuitDriver()
      modifies this`quitCalls
      ensures quitCalls == old(quitCalls) + (if hasDriver then 1 else 0)
    {
      if hasDriver {
        quitCalls := quitCalls + 1;
      }
    }
  }
}
