/** What one fetch of a listing page gives the scrapers, after the HTML parser,
    the CSS selectors and `JSON.parse` have done their part. Every selector result
    is the text cheerio would give: `""` when nothing matches. */
module PageInput {
  import opened Wrappers

  /** A JSON value where the scrapers expect a price: absent (or `null`), a
      number, or a string. Fractional numbers are not modelled. */
  datatype JsonScalar = Missing | JsonNumber(n: int) | JsonString(s: string)

  /** One entry of an image array: a bare URL string, an object carrying `url`
      and/or `path` (`""` when the key is absent), or `null`. */
  datatype ImageEntry = EntryString(s: string) | EntryObject(url: string, path: string) | EntryNull

  /** The `image` property of a JSON-LD record: absent or falsy, a string, an
      array, or some other object (a schema.org ImageObject, say). */
  datatype LdImage = NoImage | ImageString(url: string) | ImageArray(entries: seq<ImageEntry>) | ImageOther

  /** schema.org `Offer`; only its `price` is read. */
  datatype LdOffer = LdOffer(price: JsonScalar)

  /** A parsed JSON-LD record: its `@type` (`""` unless it is a string), `name`,
      `description`, `offers` (when truthy) and `image`. */
  datatype LdRecord = LdRecord(
    typ: string,
    name: string,
    description: string,
    offers: Option<LdOffer>,
    image: LdImage)

  /** One `<script type="application/ld+json">` block. `Malformed` is a block that
      is empty, fails to parse, or parses to something that is not an object. */
  datatype LdBlock = Malformed | Parsed(ld: LdRecord)

  /** A Finn ad object in the hydration payload (`heading`, `title`,
      `description`, `price.total`, `main_price.amount`, `image_urls`,
      `images`, `user.name`, `seller.name`); `None` for a list that is absent
      or not an array. */
  datatype FinnAd = FinnAd(
    heading: string,
    title: string,
    description: string,
    priceTotal: JsonScalar,
    mainPriceAmount: JsonScalar,
    imageUrls: Option<seq<string>>,
    images: Option<seq<ImageEntry>>,
    userName: string,
    sellerName: string)

  /** A Tise listing object in the hydration payload (`title`, `description`,
      `price`, `images`, `user.name`, `user.username`). */
  datatype TiseItem = TiseItem(
    title: string,
    description: string,
    price: JsonScalar,
    images: Option<seq<ImageEntry>>,
    userName: string,
    userUsername: string)

  /** The parsed `__NEXT_DATA__` blob, reduced to the four paths the scrapers
      probe: `props.pageProps.ad.data`, `props.pageProps.initialState.ad.data`,
      `props.pageProps.tise` and `props.pageProps.initialState.tise`. */
  datatype NextData = NextData(
    adData: Option<FinnAd>,
    initialAdData: Option<FinnAd>,
    tise: Option<TiseItem>,
    initialTise: Option<TiseItem>)

  /** The `src` and `data-src` attributes of one `<img>` (`""` when absent). */
  datatype Img = Img(src: string, dataSrc: string)

  /** The results of the CSS selectors, untrimmed, as cheerio's `.text()` gives them. */
  datatype Markup = Markup(
    h1: string,                     // $("h1").first()
    adTitle: string,                // [data-testid="ad-title"]
    titleClass: string,             // [class*="title"], first match
    aboutAd: seq<string>,           // the <p> texts under [aria-label="Om annonsen"]
    finnDescription: string,        // [data-testid="ad-description"], .import-decoration, [class*="Description"], <br> as "\n"
    itemDescription: seq<string>,   // the <p> texts under section[aria-label="Beskrivelse av varen"]
    tiseDescription: string,        // [class*="description"], <br> as "\n"
    pricingAmount: string,          // [data-testid="pricing-amount"]
    firstT3: string,                // .u-t3, first match
    priceClass: string,             // [class*="price"], first match
    imgs: seq<Img>,                 // every <img>, in document order
    sellerName: string,             // [data-testid="seller-name"]
    firstStrong: string,            // .u-strong, first match
    sellerClass: string,            // [class*="seller"]
    firstUserClass: string)         // [class*="user"], first match

  /** A fetched page: its JSON-LD blocks in document order, the `__NEXT_DATA__`
      payload (`None` when the script is absent, empty or not valid JSON), and
      the markup. */
  datatype Page = Page(ldBlocks: seq<LdBlock>, nextData: Option<NextData>, markup: Markup)

  /** The outcome of the `fetch`: the HTTP status and the page it delivered. */
  datatype Response = Response(status: nat, page: Page)

  /** `response.ok`. */
  predicate IsOk(r: Response) {
    200 <= r.status <= 299
  }
}
