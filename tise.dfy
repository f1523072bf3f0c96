/** The Tise scraper (src/lib/scrapers/tise.ts). After the fetch it fills the
    five fields in three layers: the `__NEXT_DATA__` listing object first, then
    the first JSON-LD block, then the markup. Each layer is a function from the
    fields so far to the fields after it; `ScrapeTise` is the step-by-step
    version with the source's mutable locals and its `<img>` loop, proved to
    compute `Scrape`. */
module Tise {
  import opened Wrappers
  import opened JsText
  import opened Types
  import opened PageInput
  import opened Cascade

  // ---------------------------------------------------------------------------
  // Layer 1: the `__NEXT_DATA__` listing object

  /** `props.pageProps.tise || props.pageProps.initialState.tise`. */
  function TiseData(n: NextData): Option<TiseItem> {
    if n.tise.Some? then n.tise else n.initialTise
  }

  /** `img.url || img`: the entry's `url`, or a string entry itself. */
  function EntryUrl(e: ImageEntry): (r: string)
    ensures e.EntryString? ==> r == e.s
    ensures e.EntryObject? ==> r == e.url
  {
    match e
    case EntryString(s) => s
    case EntryObject(url, _) => url
    case EntryNull => ""
  }

  /** The `images` assignment: a list when `images` is an array without `null`,
      a throw when it holds `null` (`null.url`), nothing otherwise. */
  function HydrationImages(item: TiseItem): (r: ImagesAssignment)
    ensures r.Keep? <==> item.images.None?
    ensures r.Throw? <==> item.images.Some? && HasNull(item.images.value)
    ensures r.Assign? ==>
      item.images.Some? && |r.urls| == |item.images.value| &&
      forall i :: 0 <= i < |r.urls| ==> r.urls[i] == EntryUrl(item.images.value[i])
  {
    if item.images.None? then Keep
    else
      var es := item.images.value;
      if HasNull(es) then Throw
      else Assign(seq(|es|, i requires 0 <= i < |es| => EntryUrl(es[i])))
  }

  /** The body of `if (tiseData)`: title, description and price are assigned
      outright (not only when empty); then the images, then the seller, unless
      the image mapping throws first. */
  function FromItem(d: Draft, item: TiseItem): (r: Draft)
    ensures r.title == item.title && r.description == item.description
    ensures r.price == OrZero(item.price)
    ensures HydrationImages(item).Throw? ==> r.images == d.images && r.seller == d.seller
    ensures HydrationImages(item).Keep? ==> r.images == d.images
    ensures HydrationImages(item).Assign? ==> r.images == HydrationImages(item).urls
    ensures !HydrationImages(item).Throw? ==> r.seller == FirstNonEmpty(item.userName, item.userUsername)
  {
    var filled := d.(title := item.title, description := item.description, price := OrZero(item.price));
    var seller := FirstNonEmpty(item.userName, item.userUsername);
    match HydrationImages(item)
    case Keep => filled.(seller := seller)
    case Assign(urls) => filled.(images := urls, seller := seller)
    case Throw => filled
  }

  /** Layer 1: a missing or unparsable blob, or one without listing data, changes nothing. */
  function HydrationLayer(d: Draft, next: Option<NextData>): Draft {
    if next.None? || TiseData(next.value).None? then d
    else FromItem(d, TiseData(next.value).value)
  }

  // ---------------------------------------------------------------------------
  // Layer 2: the first JSON-LD block only

  /** The body of the JSON-LD `try`: no `@type` check, every field filled only
      while still falsy, and the offer price stored as found (`price || 0`,
      no `parseInt`). */
  function FromLd(d: Draft, ld: LdRecord): (r: Draft)
    ensures d.title != "" ==> r.title == d.title
    ensures d.description != "" ==> r.description == d.description
    ensures d.price.Truthy() ==> r.price == d.price
    ensures d.images != [] ==> r.images == d.images
    ensures r.seller == d.seller
    ensures d.title == "" ==> r.title == ld.name
    ensures d.description == "" ==> r.description == ld.description
    ensures !d.price.Truthy() && ld.offers.Some? ==> r.price == OrZero(ld.offers.value.price)
    ensures ld.offers.None? ==> r.price == d.price
    ensures d.images == [] && LdImages(ld.image).Some? ==> r.images == LdImages(ld.image).value
    ensures LdImages(ld.image).None? ==> r.images == d.images
  {
    var title := if d.title == "" then ld.name else d.title;
    var description := if d.description == "" then ld.description else d.description;
    var price := if !d.price.Truthy() && ld.offers.Some? then OrZero(ld.offers.value.price) else d.price;
    var fromLd := LdImages(ld.image);
    var images := if d.images == [] && fromLd.Some? then fromLd.value else d.images;
    d.(title := title, description := description, price := price, images := images)
  }

  /** Layer 2: runs only while the title or the description is empty, and reads
      only the first block; a malformed first block changes nothing. */
  function LdLayer(d: Draft, blocks: seq<LdBlock>): Draft {
    if d.title != "" && d.description != "" then d
    else if blocks == [] || blocks[0].Malformed? then d
    else FromLd(d, blocks[0].ld)
  }

  // ---------------------------------------------------------------------------
  // Layer 3: markup

  /** `h1`, else `[class*="title"]`, only while the title is empty. */
  function MarkupTitle(d: Draft, m: Markup): (r: Draft)
    ensures r.(title := d.title) == d
    ensures d.title != "" ==> r == d
    ensures d.title == "" ==> r.title == FirstNonEmpty(Trim(m.h1), Trim(m.titleClass))
  {
    if d.title != "" then d else d.(title := FirstNonEmpty(Trim(m.h1), Trim(m.titleClass)))
  }

  /** `[class*="description"]`, only while the description is empty: unlike
      Finn, nothing in the markup overrides a description already found. */
  function MarkupDescription(d: Draft, m: Markup): (r: Draft)
    ensures r.(description := d.description) == d
    ensures d.description != "" ==> r == d
    ensures d.description == "" ==> r.description == Trim(m.tiseDescription)
  {
    if d.description != "" then d else d.(description := Trim(m.tiseDescription))
  }

  /** The digit scan of `[class*="price"]`, only while the price is falsy. */
  function MarkupPrice(d: Draft, m: Markup): (r: Draft)
    ensures r.(price := d.price) == d
    ensures d.price.Truthy() ==> r == d
    ensures r.price != d.price ==> r.price.Num? && r.price.n >= 0
  {
    if d.price.Truthy() then d
    else
      match DigitScan(m.priceClass)
      case Some(n) => d.(price := Num(n))
      case None => d
  }

  /** `src && (src.includes("tise") || src.includes("cdn"))`. */
  predicate Kept(src: string) {
    src != "" && (Includes(src, "tise") || Includes(src, "cdn"))
  }

  /** What one `<img>` pushes: its `src` when that is kept. */
  function KeptPart(img: Img): (r: seq<string>)
    ensures r == [] || (|r| == 1 && r[0] == img.src)
  {
    if Kept(img.src) then [img.src] else []
  }

  /** The `src` values the `<img>` loop pushes, in document order. */
  function KeptImages(imgs: seq<Img>): (r: seq<string>)
    ensures |r| <= |imgs|
  {
    if |imgs| == 0 then []
    else KeptImages(imgs[..|imgs| - 1]) + KeptPart(imgs[|imgs| - 1])
  }

  /** Exactly the kept `src` values are collected; `data-src` is never read. */
  lemma {:induction false} KeptImagesSpec(imgs: seq<Img>)
    ensures forall u :: u in KeptImages(imgs) <==> exists i :: 0 <= i < |imgs| && u == imgs[i].src && Kept(u)
  {
    if imgs != [] {
      var init := imgs[..|imgs| - 1];
      KeptImagesSpec(init);
      assert forall i :: 0 <= i < |init| ==> init[i] == imgs[i];
      assert imgs == init + [imgs[|imgs| - 1]];
    }
  }

  /** One more `<img>` adds at most its `src` at the end. */
  lemma KeptImagesSnoc(imgs: seq<Img>, img: Img)
    ensures KeptImages(imgs + [img]) == KeptImages(imgs) + KeptPart(img)
  {
    var more := imgs + [img];
    assert more[..|more| - 1] == imgs;
  }

  /** The inductive step of `KeptImagesAppend`. */
  lemma KeptImagesAppendStep(a: seq<Img>, front: seq<Img>, last: Img)
    requires KeptImages(a + front) == KeptImages(a) + KeptImages(front)
    ensures KeptImages((a + front) + [last]) == KeptImages(a) + KeptImages(front + [last])
  {
    KeptImagesSnoc(a + front, last);
    KeptImagesSnoc(front, last);
    ConcatAssoc(KeptImages(a), KeptImages(front), KeptPart(last));
  }

  /** The loop looks at one `<img>` at a time, so the kept `src` values come
      in document order and each element contributes at most once. */
  lemma {:induction false} KeptImagesAppend(a: seq<Img>, b: seq<Img>)
    ensures KeptImages(a + b) == KeptImages(a) + KeptImages(b)
    decreases |b|
  {
    if b == [] {
      assert a + b == a;
    } else {
      var front, last := b[..|b| - 1], b[|b| - 1];
      SplitLast(a, b);
      KeptImagesAppend(a, front);
      KeptImagesAppendStep(a, front, last);
    }
  }

  /** One `<img>` contributes its `src` exactly when that is kept. */
  lemma KeptImagesOne(img: Img)
    ensures KeptImages([img]) == if Kept(img.src) then [img.src] else []
  {
    assert [img][..0] == [];
    assert KeptImages([img]) == [] + KeptPart(img);
  }

  /** The `<img>` fallback, only while no image was found. */
  function MarkupImages(d: Draft, m: Markup): (r: Draft)
    ensures r.(images := d.images) == d
    ensures d.images != [] ==> r == d
    ensures d.images == [] ==> r.images == KeptImages(m.imgs)
  {
    if d.images != [] then d else d.(images := KeptImages(m.imgs))
  }

  /** `[class*="seller"]`, else `[class*="user"]`, only while the seller is empty. */
  function MarkupSeller(d: Draft, m: Markup): (r: Draft)
    ensures r.(seller := d.seller) == d
    ensures d.seller != "" ==> r == d
    ensures d.seller == "" ==> r.seller == FirstNonEmpty(Trim(m.sellerClass), Trim(m.firstUserClass))
  {
    if d.seller != "" then d else d.(seller := FirstNonEmpty(Trim(m.sellerClass), Trim(m.firstUserClass)))
  }

  /** Layer 3, in source order. */
  function MarkupLayer(d: Draft, m: Markup): Draft {
    MarkupSeller(MarkupImages(MarkupPrice(MarkupDescription(MarkupTitle(d, m), m), m), m), m)
  }

  /** All three layers, starting from the initial values of the locals. */
  function Extract(page: Page): Draft {
    MarkupLayer(LdLayer(HydrationLayer(Blank, page.nextData), page.ldBlocks), page.markup)
  }

  // ---------------------------------------------------------------------------
  // The ad id

  /** `[a-zA-Z0-9-]`. */
  predicate IsIdChar(c: char) {
    ('a' <= c <= 'z') || ('A' <= c <= 'Z') || IsDigit(c) || c == '-'
  }

  /** The longest prefix of `s` made of id characters. */
  function IdRun(s: string): (r: string)
    ensures |r| <= |s| && r == s[..|r|]
    ensures forall i :: 0 <= i < |r| ==> IsIdChar(r[i])
    ensures |r| == |s| || !IsIdChar(s[|r|])
  {
    if s != [] && IsIdChar(s[0]) then [s[0]] + IdRun(s[1..]) else []
  }

  /** The capture of `\/([a-zA-Z0-9-]+)(?:\?|$)` when a match starts at index
      `i`: a `/`, the whole run of id characters after it (backtracking to a
      shorter run cannot help, since an id character is neither `?` nor the
      end), then `?` or the end of the URL. */
  function IdAt(url: string, i: nat): (r: Option<string>)
    requires i <= |url|
    ensures r.Some? ==> r.value != [] && forall k :: 0 <= k < |r.value| ==> IsIdChar(r.value[k])
    ensures r.Some? ==> i < |url| && url[i] == '/' && OccursAt(url, r.value, i + 1)
    ensures r.Some? ==> i + 1 + |r.value| == |url| || url[i + 1 + |r.value|] == '?'
  {
    if i < |url| && url[i] == '/' then
      var run := IdRun(url[i + 1..]);
      var next := i + 1 + |run|;
      assert url[i + 1..][..|run|] == url[i + 1..next];
      if run != [] && (next == |url| || url[next] == '?') then Some(run) else None
    else None
  }

  /** The leftmost index from `i` on where a match starts, or `|url|`. */
  function MatchStart(url: string, i: nat): (j: nat)
    requires i <= |url|
    ensures i <= j <= |url|
    ensures forall k :: i <= k < j ==> IdAt(url, k).None?
    ensures j < |url| ==> IdAt(url, j).Some?
    decreases |url| - i
  {
    if i == |url| || IdAt(url, i).Some? then i else MatchStart(url, i + 1)
  }

  /** `adIdMatch ? adIdMatch[1] : ""`. */
  function AdId(url: string): (id: string)
    ensures forall k :: 0 <= k < |id| ==> IsIdChar(id[k])
  {
    var j := MatchStart(url, 0);
    if j < |url| then IdAt(url, j).value else ""
  }

  /** The id is the capture of the leftmost match, and `""` exactly when no
      position matches. */
  lemma AdIdSpec(url: string)
    ensures AdId(url) == "" <==> forall k :: 0 <= k < |url| ==> IdAt(url, k).None?
    ensures AdId(url) != "" ==>
      exists k :: 0 <= k < |url| && IdAt(url, k) == Some(AdId(url)) && (forall k' :: 0 <= k' < k ==> IdAt(url, k').None?)
  {
    var j := MatchStart(url, 0);
    if j < |url| {
      assert IdAt(url, j) == Some(AdId(url));
    }
  }

  // ---------------------------------------------------------------------------
  // The scraper

  /** `scrapeTise`: a response that is not OK throws with its status; otherwise the
      three layers run and the record is assembled with at most five images. */
  function Scrape(url: string, response: Response): (r: Result<ScrapedData, string>)
    ensures !IsOk(response) <==> r.Failure?
    ensures r.Failure? ==> r.error == FetchFailureMessage(response.status)
    ensures r.Success? ==> r.value.platform == Tise && r.value.originalUrl == url
    ensures r.Success? ==> |r.value.images| <= 5
  {
    if !IsOk(response) then Failure(FetchFailureMessage(response.status))
    else Success(Assemble(Extract(response.page), AdId(url), Tise, url))
  }

  /** The hydration `try`, on the five locals. */
  method HydrateFromNextData(title0: string, description0: string, price0: PriceValue, images0: seq<string>, seller0: string, next: Option<NextData>)
    returns (title: string, description: string, price: PriceValue, images: seq<string>, seller: string)
    ensures Draft(title, description, price, images, seller) == HydrationLayer(Draft(title0, description0, price0, images0, seller0), next)
  {
    title, description, price, images, seller := title0, description0, price0, images0, seller0;
    if next.Some? && TiseData(next.value).Some? {
      var item := TiseData(next.value).value;
      title := item.title;
      description := item.description;
      price := OrZero(item.price);
      var thrown := false;
      match HydrationImages(item) {
        case Keep =>
        case Assign(urls) => images := urls;
        case Throw => thrown := true;
      }
      if !thrown {
        seller := FirstNonEmpty(item.userName, item.userUsername);
      }
    }
  }

  /** The JSON-LD block, on the five locals. */
  method ReadFirstLdBlock(title0: string, description0: string, price0: PriceValue, images0: seq<string>, seller0: string, blocks: seq<LdBlock>)
    returns (title: string, description: string, price: PriceValue, images: seq<string>, seller: string)
    ensures Draft(title, description, price, images, seller) == LdLayer(Draft(title0, description0, price0, images0, seller0), blocks)
  {
    title, description, price, images, seller := title0, description0, price0, images0, seller0;
    if title == "" || description == "" {
      if blocks != [] && blocks[0].Parsed? {
        var ld := blocks[0].ld;
        if title == "" {
          title := ld.name;
        }
        if description == "" {
          description := ld.description;
        }
        if !price.Truthy() && ld.offers.Some? {
          price := OrZero(ld.offers.value.price);
        }
        var fromLd := LdImages(ld.image);
        if images == [] && fromLd.Some? {
          images := fromLd.value;
        }
      }
    }
  }

  /** The `<img>` loop: push every kept `src`. */
  method CollectImages(imgs: seq<Img>) returns (images: seq<string>)
    ensures images == KeptImages(imgs)
  {
    images := [];
    var n := 0;
    while n < |imgs|
      invariant 0 <= n <= |imgs|
      invariant images == KeptImages(imgs[..n])
    {
      var src := imgs[n].src;
      if src != "" && (Includes(src, "tise") || Includes(src, "cdn")) {
        images := images + [src];
      }
      assert imgs[..n + 1][..n] == imgs[..n];
      n := n + 1;
    }
    assert imgs[..n] == imgs;
  }

  /** The markup fallbacks, on the five locals, in source order. */
  method FillFromMarkup(title0: string, description0: string, price0: PriceValue, images0: seq<string>, seller0: string, m: Markup)
    returns (title: string, description: string, price: PriceValue, images: seq<string>, seller: string)
    ensures Draft(title, description, price, images, seller) == MarkupLayer(Draft(title0, description0, price0, images0, seller0), m)
  {
    title, description, price, images, seller := title0, description0, price0, images0, seller0;
    ghost var d := Draft(title, description, price, images, seller);
    if title == "" {
      title := FirstNonEmpty(Trim(m.h1), Trim(m.titleClass));
    }
    ghost var d0 := Draft(title, description, price, images, seller);
    assert d0 == MarkupTitle(d, m);
    if description == "" {
      description := Trim(m.tiseDescription);
    }
    ghost var d1 := Draft(title, description, price, images, seller);
    assert d1 == MarkupDescription(d0, m);
    if !price.Truthy() {
      var scanned := DigitScan(m.priceClass);
      if scanned.Some? {
        price := Num(scanned.value);
      }
    }
    ghost var d2 := Draft(title, description, price, images, seller);
    assert d2 == MarkupPrice(d1, m);
    if images == [] {
      images := CollectImages(m.imgs);
    }
    ghost var d3 := Draft(title, description, price, images, seller);
    assert d3 == MarkupImages(d2, m);
    if seller == "" {
      seller := FirstNonEmpty(Trim(m.sellerClass), Trim(m.firstUserClass));
    }
  }

  /** `scrapeTise` as the source writes it: five mutable locals updated by the
      hydration block, the JSON-LD block and the markup fallbacks in turn. */
  method ScrapeTise(url: string, response: Response) returns (r: Result<ScrapedData, string>)
    ensures r == Scrape(url, response)
  {
    if !(200 <= response.status <= 299) {
      return Failure(FetchFailureMessage(response.status));
    }
    var page := response.page;
    var title, description, price, images, seller := "", "", Num(0), [], "";
    title, description, price, images, seller := HydrateFromNextData(title, description, price, images, seller, page.nextData);
    title, description, price, images, seller := ReadFirstLdBlock(title, description, price, images, seller, page.ldBlocks);
    title, description, price, images, seller := FillFromMarkup(title, description, price, images, seller, page.markup);
    var adId := AdId(url);
    r := Success(ScrapedData(title, description, price, FirstFive(images), seller, adId, Tise, url));
  }

  // ---------------------------------------------------------------------------
  // Properties of the whole cascade

  /** The markup layer never overwrites a field it was given. */
  lemma MarkupLayerKeeps(d: Draft, m: Markup)
    ensures d.title != "" ==> MarkupLayer(d, m).title == d.title
    ensures d.description != "" ==> MarkupLayer(d, m).description == d.description
    ensures d.price.Truthy() ==> MarkupLayer(d, m).price == d.price
    ensures d.images != [] ==> MarkupLayer(d, m).images == d.images
    ensures d.seller != "" ==> MarkupLayer(d, m).seller == d.seller
  {
    var d0 := MarkupTitle(d, m);
    var d1 := MarkupDescription(d0, m);
    var d2 := MarkupPrice(d1, m);
    var d3 := MarkupImages(d2, m);
    assert MarkupLayer(d, m) == MarkupSeller(d3, m);
  }

  /** The JSON-LD layer never overwrites a field it was given. */
  lemma LdLayerKeeps(d: Draft, blocks: seq<LdBlock>)
    ensures d.title != "" ==> LdLayer(d, blocks).title == d.title
    ensures d.description != "" ==> LdLayer(d, blocks).description == d.description
    ensures d.price.Truthy() ==> LdLayer(d, blocks).price == d.price
    ensures d.images != [] ==> LdLayer(d, blocks).images == d.images
    ensures LdLayer(d, blocks).seller == d.seller
  {
  }

  /** Only the first JSON-LD block is ever read: later blocks change nothing. */
  lemma OnlyFirstBlockRead(page: Page, later: seq<LdBlock>)
    requires page.ldBlocks != []
    ensures Extract(page.(ldBlocks := page.ldBlocks + later)) == Extract(page)
  {
    assert (page.ldBlocks + later)[0] == page.ldBlocks[0];
  }

  /** A malformed first block makes the JSON-LD layer do nothing, whatever follows it. */
  lemma MalformedFirstBlockIgnored(d: Draft, later: seq<LdBlock>)
    ensures LdLayer(d, [Malformed] + later) == d
  {
  }

  /** A non-empty title or description from the listing object wins over every
      later source. */
  lemma HydrationWins(page: Page, item: TiseItem)
    requires page.nextData.Some? && TiseData(page.nextData.value) == Some(item)
    ensures item.title != "" ==> Extract(page).title == item.title
    ensures item.description != "" ==> Extract(page).description == item.description
  {
    var afterHydration := HydrationLayer(Blank, page.nextData);
    var afterLd := LdLayer(afterHydration, page.ldBlocks);
    LdLayerKeeps(afterHydration, page.ldBlocks);
    MarkupLayerKeeps(afterLd, page.markup);
  }

  /** With both title and description from the listing object, the JSON-LD
      blocks are not consulted at all. */
  lemma LdSkippedWhenHydrated(page: Page, item: TiseItem, blocks: seq<LdBlock>)
    requires page.nextData.Some? && TiseData(page.nextData.value) == Some(item)
    requires item.title != "" && item.description != ""
    ensures Extract(page.(ldBlocks := blocks)) == Extract(page)
  {
  }

  /** A description found before the markup is never replaced. */
  lemma MarkupNeverOverridesDescription(page: Page)
    requires LdLayer(HydrationLayer(Blank, page.nextData), page.ldBlocks).description != ""
    ensures Extract(page).description == LdLayer(HydrationLayer(Blank, page.nextData), page.ldBlocks).description
  {
    MarkupLayerKeeps(LdLayer(HydrationLayer(Blank, page.nextData), page.ldBlocks), page.markup);
  }

  /** When the price comes from the markup, it is the non-negative value of the
      first digit run of `[class*="price"]`. */
  lemma MarkupPriceIsScan(d: Draft, m: Markup)
    requires !d.price.Truthy() && DigitScan(m.priceClass).Some?
    ensures MarkupLayer(d, m).price == Num(DigitScan(m.priceClass).value)
    ensures MarkupLayer(d, m).price.n >= 0
  {
    var d1 := MarkupDescription(MarkupTitle(d, m), m);
    assert MarkupPrice(d1, m).price == Num(DigitScan(m.priceClass).value);
  }

  /** The `<img>` fallback is used exactly when no earlier layer found images,
      and then every URL mentions `tise` or `cdn`. */
  lemma ImagesFallback(d: Draft, m: Markup)
    ensures d.images == [] ==> MarkupLayer(d, m).images == KeptImages(m.imgs)
    ensures d.images == [] ==> forall i :: 0 <= i < |MarkupLayer(d, m).images| ==> Kept(MarkupLayer(d, m).images[i])
    ensures d.images != [] ==> MarkupLayer(d, m).images == d.images
  {
    MarkupLayerKeeps(d, m);
    KeptImagesSpec(m.imgs);
    var d2 := MarkupPrice(MarkupDescription(MarkupTitle(d, m), m), m);
    assert d2.images == d.images;
    assert MarkupLayer(d, m).images == MarkupImages(d2, m).images;
  }

  /** A JSON-LD offer price is stored as found: a string stays a string. */
  lemma LdPriceNotCoerced(d: Draft, ld: LdRecord, s: string)
    requires !d.price.Truthy() && ld.offers == Some(LdOffer(JsonString(s))) && s != ""
    ensures FromLd(d, ld).price == Text(s)
  {
  }
}
