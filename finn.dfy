/** The Finn.no scraper (src/lib/scrapers/finn.ts). After the fetch it fills the
    five fields in three layers: every JSON-LD block, then the `__NEXT_DATA__`
    ad object, then the markup. Each layer is a function from the fields so far
    to the fields after it; `ScrapeFinn` is the step-by-step version with the
    source's mutable locals and loops, proved to compute `Scrape`. */
module Finn {
  import opened Wrappers
  import opened JsText
  import opened Types
  import opened PageInput
  import opened Cascade

  // ---------------------------------------------------------------------------
  // Layer 1: JSON-LD blocks, in document order

  predicate IsProduct(b: LdBlock) {
    b.Parsed? && b.ld.typ == "Product"
  }

  /** The coercion of `offers.price`: a string goes through `parseInt(·, 10)`
      (so `"-5"` gives -5 and `"kr 100"` gives `NaN`), anything else through `|| 0`. */
  function LdPrice(v: JsonScalar): (p: PriceValue)
    ensures v.JsonString? ==> (p.NaN? <==> ParseInt(v.s).None?)
    ensures v.JsonString? && ParseInt(v.s).Some? ==> p == Num(ParseInt(v.s).value)
    ensures v.JsonNumber? && v.n != 0 ==> p == Num(v.n)
    ensures v.Missing? || v == JsonNumber(0) ==> p == Num(0)
  {
    match v
    case JsonString(s) => (match ParseInt(s) case Some(n) => Num(n) case None => NaN)
    case _ => OrZero(v)
  }

  /** One pass of the `.each` callback. Only a block whose `@type` is exactly
      `"Product"` contributes; each field is written only while still falsy. */
  function LdStep(d: Draft, b: LdBlock): (r: Draft)
    ensures !IsProduct(b) ==> r == d
    ensures r.description == d.description && r.seller == d.seller
    ensures d.title != "" ==> r.title == d.title
    ensures IsProduct(b) && d.title == "" ==> r.title == b.ld.name
    ensures d.price.Truthy() || !IsProduct(b) || b.ld.offers.None? ==> r.price == d.price
    ensures IsProduct(b) && !d.price.Truthy() && b.ld.offers.Some? ==> r.price == LdPrice(b.ld.offers.value.price)
    ensures d.images != [] || !IsProduct(b) || LdImages(b.ld.image).None? ==> r.images == d.images
    ensures IsProduct(b) && d.images == [] && LdImages(b.ld.image).Some? ==> r.images == LdImages(b.ld.image).value
  {
    if !IsProduct(b) then d
    else
      var p := b.ld;
      var title := if d.title == "" then p.name else d.title;
      var price := if !d.price.Truthy() && p.offers.Some? then LdPrice(p.offers.value.price) else d.price;
      var fromLd := LdImages(p.image);
      var images := if d.images == [] && fromLd.Some? then fromLd.value else d.images;
      d.(title := title, price := price, images := images)
  }

  /** The whole `.each` loop. It never touches the description or the seller,
      and never overwrites a field that is already truthy. */
  function LdLayer(d: Draft, blocks: seq<LdBlock>): (r: Draft)
    ensures r.description == d.description && r.seller == d.seller
    ensures d.title != "" ==> r.title == d.title
    ensures d.price.Truthy() ==> r.price == d.price
    ensures d.images != [] ==> r.images == d.images
  {
    if blocks == [] then d else LdStep(LdLayer(d, blocks[..|blocks| - 1]), blocks[|blocks| - 1])
  }

  /** Reference reading of the title rule: the name of the first Product block
      whose name is non-empty. */
  function FirstProductName(blocks: seq<LdBlock>): string {
    if blocks == [] then ""
    else if IsProduct(blocks[0]) && blocks[0].ld.name != "" then blocks[0].ld.name
    else FirstProductName(blocks[1..])
  }

  /** Reference reading of the image rule: the first non-empty list a Product block assigns. */
  function FirstProductImages(blocks: seq<LdBlock>): seq<string> {
    if blocks == [] then []
    else if IsProduct(blocks[0]) && LdImages(blocks[0].ld.image).Some? && LdImages(blocks[0].ld.image).value != []
    then LdImages(blocks[0].ld.image).value
    else FirstProductImages(blocks[1..])
  }

  /** Reference reading of the price rule: the first truthy coerced offer price. */
  function FirstProductPrice(blocks: seq<LdBlock>): (r: Option<PriceValue>)
    ensures r.Some? ==> r.value.Truthy()
  {
    if blocks == [] then None
    else if IsProduct(blocks[0]) && blocks[0].ld.offers.Some? && LdPrice(blocks[0].ld.offers.value.price).Truthy()
    then Some(LdPrice(blocks[0].ld.offers.value.price))
    else FirstProductPrice(blocks[1..])
  }

  lemma {:induction false} FirstProductSnoc(blocks: seq<LdBlock>, b: LdBlock)
    ensures FirstProductName(blocks + [b]) ==
      if FirstProductName(blocks) != "" then FirstProductName(blocks) else FirstProductName([b])
    ensures FirstProductImages(blocks + [b]) ==
      if FirstProductImages(blocks) != [] then FirstProductImages(blocks) else FirstProductImages([b])
    ensures FirstProductPrice(blocks + [b]) ==
      if FirstProductPrice(blocks).Some? then FirstProductPrice(blocks) else FirstProductPrice([b])
  {
    if blocks != [] {
      assert (blocks + [b])[1..] == blocks[1..] + [b];
      FirstProductSnoc(blocks[1..], b);
    }
  }

  /** First writer wins among the Product blocks: the title is the first
      non-empty name, the images the first non-empty list, and the price the
      first truthy coerced price (or stays falsy when there is none). */
  lemma {:induction false} LdLayerFirstWriterWins(d: Draft, blocks: seq<LdBlock>)
    ensures LdLayer(d, blocks).title == if d.title != "" then d.title else FirstProductName(blocks)
    ensures LdLayer(d, blocks).images == if d.images != [] then d.images else FirstProductImages(blocks)
    ensures !d.price.Truthy() && FirstProductPrice(blocks).Some? ==>
      LdLayer(d, blocks).price == FirstProductPrice(blocks).value
    ensures !d.price.Truthy() && FirstProductPrice(blocks).None? ==> !LdLayer(d, blocks).price.Truthy()
  {
    if blocks != [] {
      var init, b := blocks[..|blocks| - 1], blocks[|blocks| - 1];
      assert blocks == init + [b];
      LdLayerFirstWriterWins(d, init);
      FirstProductSnoc(init, b);
      assert [b][1..] == [];
      var before := LdLayer(d, init);
      assert LdLayer(d, blocks) == LdStep(before, b);
      if FirstProductPrice(init).Some? && !d.price.Truthy() {
        assert before.price.Truthy();
      }
      if !d.price.Truthy() && FirstProductPrice(init).None? {
        assert !before.price.Truthy();
        if IsProduct(b) && b.ld.offers.Some? {
          assert LdLayer(d, blocks).price == LdPrice(b.ld.offers.value.price);
        } else {
          assert LdLayer(d, blocks).price == before.price;
        }
      }
    }
  }

  /** A block that is malformed, or whose `@type` is not `"Product"`, can be
      removed from anywhere without changing the outcome. */
  lemma {:induction false} LdLayerSkipsNonProduct(d: Draft, front: seq<LdBlock>, b: LdBlock, back: seq<LdBlock>)
    requires !IsProduct(b)
    ensures LdLayer(d, front + [b] + back) == LdLayer(d, front + back)
  {
    var all := front + [b] + back;
    if back == [] {
      assert all[..|all| - 1] == front;
      assert front + back == front;
    } else {
      var init := back[..|back| - 1];
      LdLayerSkipsNonProduct(d, front, b, init);
      assert all[..|all| - 1] == front + [b] + init;
      assert (front + back)[..|front + back| - 1] == front + init;
    }
  }

  /** When no block is a Product (all malformed, say), the JSON-LD layer does nothing. */
  lemma {:induction false} LdLayerNoProduct(d: Draft, blocks: seq<LdBlock>)
    requires forall i :: 0 <= i < |blocks| ==> !IsProduct(blocks[i])
    ensures LdLayer(d, blocks) == d
  {
    if blocks != [] {
      LdLayerNoProduct(d, blocks[..|blocks| - 1]);
    }
  }

  // ---------------------------------------------------------------------------
  // Layer 2: the `__NEXT_DATA__` ad object

  /** `props.pageProps.ad.data || props.pageProps.initialState.ad.data`. */
  function AdData(n: NextData): Option<FinnAd> {
    if n.adData.Some? then n.adData else n.initialAdData
  }

  /** `img.url || img.path`. */
  function HydrationEntryUrl(e: ImageEntry): (r: string)
    ensures e.EntryObject? && e.url != "" ==> r == e.url
    ensures e.EntryObject? && e.url == "" ==> r == e.path
    ensures !e.EntryObject? ==> r == ""
  {
    match e
    case EntryObject(url, path) => FirstNonEmpty(url, path)
    case _ => ""
  }

  /** `image_urls` when it is an array, else `images` mapped through `url || path`. */
  function HydrationImages(ad: FinnAd): (r: ImagesAssignment)
    ensures ad.imageUrls.Some? ==> r == Assign(ad.imageUrls.value)
    ensures r.Keep? <==> ad.imageUrls.None? && ad.images.None?
    ensures r.Throw? <==> ad.imageUrls.None? && ad.images.Some? && HasNull(ad.images.value)
    ensures ad.imageUrls.None? && r.Assign? ==>
      ad.images.Some? && |r.urls| == |ad.images.value| &&
      forall i :: 0 <= i < |r.urls| ==> r.urls[i] == HydrationEntryUrl(ad.images.value[i])
  {
    if ad.imageUrls.Some? then Assign(ad.imageUrls.value)
    else if ad.images.Some? then
      var es := ad.images.value;
      if HasNull(es) then Throw
      else Assign(seq(|es|, i requires 0 <= i < |es| => HydrationEntryUrl(es[i])))
    else Keep
  }

  /** The length of a case-insensitive `<br\s*\/?>` match at the start of `s`, or 0. */
  function BrAt(s: string): (n: nat)
    ensures n <= |s|
    ensures n > 0 ==> n >= 4 && s[0] == '<' && s[n - 1] == '>'
  {
    if |s| >= 3 && s[0] == '<' && LowerChar(s[1]) == 'b' && LowerChar(s[2]) == 'r' then
      var k := |s| - |TrimStart(s[3..])|;
      var k2 := if k < |s| && s[k] == '/' then k + 1 else k;
      if k2 < |s| && s[k2] == '>' then k2 + 1 else 0
    else 0
  }

  /** `s.replace(/<br\s*\/?>/gi, "\n")`. */
  function ReplaceBr(s: string): string
    decreases |s|
  {
    if s == [] then []
    else
      var n := BrAt(s);
      if n > 0 then "\n" + ReplaceBr(s[n..]) else [s[0]] + ReplaceBr(s[1..])
  }

  /** No `<` is followed, anywhere later, by a `>`: no tag is left to match `<[^>]*>`. */
  predicate TagFree(s: string) {
    forall i, j :: 0 <= i < j < |s| && s[i] == '<' ==> s[j] != '>'
  }

  /** The index of the first `>` in `s`, or `|s|`. */
  function CloseIndex(s: string): (k: nat)
    ensures k <= |s|
    ensures forall i :: 0 <= i < k ==> s[i] != '>'
    ensures k < |s| ==> s[k] == '>'
  {
    if s == [] || s[0] == '>' then 0 else 1 + CloseIndex(s[1..])
  }

  /** `s.replace(/<[^>]*>/g, "")`. */
  function StripTags(s: string): (r: string)
    ensures |r| <= |s|
    decreases |s|
  {
    if s == [] then []
    else if s[0] == '<' && CloseIndex(s) < |s| then StripTags(s[CloseIndex(s) + 1..])
    else [s[0]] + StripTags(s[1..])
  }

  /** The result holds no complete tag and no character that was not in `s`. */
  lemma {:induction false} StripTagsSpec(s: string)
    ensures TagFree(StripTags(s))
    ensures forall c :: c in StripTags(s) ==> c in s
    decreases |s|
  {
    if s == [] {
    } else if s[0] == '<' && CloseIndex(s) < |s| {
      StripTagsSpec(s[CloseIndex(s) + 1..]);
      assert forall c :: c in s[CloseIndex(s) + 1..] ==> c in s;
    } else {
      StripTagsSpec(s[1..]);
      var rest := StripTags(s[1..]);
      var r := StripTags(s);
      assert r == [s[0]] + rest;
      assert forall c :: c in s[1..] ==> c in s;
      assert forall i :: 0 < i < |r| ==> r[i] == rest[i - 1];
      if s[0] == '<' {
        assert forall c :: c in s ==> c != '>';
        forall j | 0 < j < |r|
          ensures r[j] != '>'
        {
          assert r[j] in rest;
        }
      }
    }
  }

  /** A character other than `<` starts no `<br>` and is kept. */
  lemma ReplaceBrCons(x: char, s: string)
    requires x != '<'
    ensures ReplaceBr([x] + s) == [x] + ReplaceBr(s)
  {
    var t := [x] + s;
    assert t[0] == x && t[1..] == s;
  }

  /** Text without `<` in front of the rest passes through unchanged. */
  lemma {:induction false} ReplaceBrPlainPrefix(a: string, s: string)
    requires '<' !in a
    ensures ReplaceBr(a + s) == a + ReplaceBr(s)
  {
    if a != [] {
      SplitFirst(a, s);
      ReplaceBrPlainPrefix(a[1..], s);
      ReplaceBrCons(a[0], a[1..] + s);
      ConcatAssoc([a[0]], a[1..], ReplaceBr(s));
    } else {
      assert a + s == s;
    }
  }

  /** Without `<` there is nothing to replace. */
  lemma ReplaceBrPlain(s: string)
    requires '<' !in s
    ensures ReplaceBr(s) == s
  {
    ReplaceBrPlainPrefix(s, []);
    assert s + [] == s;
  }

  /** Each of `<br>`, `<br/>`, `<BR />` and the like becomes one line break:
      `<`, `b` and `r` in either case, any white space, an optional `/`, `>`. */
  lemma ReplaceBrAt(b: char, r: char, ws: string, slash: string, s: string)
    requires LowerChar(b) == 'b' && LowerChar(r) == 'r'
    requires AllSpace(ws) && (slash == "" || slash == "/")
    ensures ReplaceBr("<" + [b] + [r] + ws + slash + ">" + s) == "\n" + ReplaceBr(s)
  {
    var x := slash + ">" + s;
    var m := "<" + [b] + [r] + ws + slash + ">" + s;
    assert m == "<" + [b] + [r] + (ws + x);
    assert m[0] == '<' && m[1] == b && m[2] == r && m[3..] == ws + x;
    BrAtOf(m, ws, slash, s);
    var n := 3 + |ws| + |slash| + 1;
    assert m[n..] == s;
  }

  /** The match `BrAt` finds when `m` is `<br`, white space, an optional `/`
      and `>`, followed by `rest`. */
  lemma BrAtOf(m: string, ws: string, slash: string, rest: string)
    requires |m| >= 3 && m[0] == '<' && LowerChar(m[1]) == 'b' && LowerChar(m[2]) == 'r'
    requires AllSpace(ws) && (slash == "" || slash == "/")
    requires m[3..] == ws + (slash + ">" + rest)
    ensures BrAt(m) == 3 + |ws| + |slash| + 1
  {
    var x := slash + ">" + rest;
    assert x[0] == '/' || x[0] == '>';
    assert !IsSpace(x[0]) by {
      VisibleAsciiIsNotSpace();
    }
    TrimStartSkips(ws, x);
    var k := 3 + |ws|;
    assert |m| - |TrimStart(m[3..])| == k;
    assert m[k] == x[0];
    assert m[k + |slash|] == '>';
  }

  /** A character other than `<` opens no tag and is kept. */
  lemma StripTagsCons(x: char, s: string)
    requires x != '<'
    ensures StripTags([x] + s) == [x] + StripTags(s)
  {
    var t := [x] + s;
    assert t[0] == x && t[1..] == s;
  }

  /** Text without `<` in front of the rest passes through unchanged. */
  lemma {:induction false} StripTagsPlainPrefix(a: string, s: string)
    requires '<' !in a
    ensures StripTags(a + s) == a + StripTags(s)
  {
    if a != [] {
      SplitFirst(a, s);
      StripTagsPlainPrefix(a[1..], s);
      StripTagsCons(a[0], a[1..] + s);
      ConcatAssoc([a[0]], a[1..], StripTags(s));
    } else {
      assert a + s == s;
    }
  }

  /** Without `<` there is no tag to remove. */
  lemma StripTagsPlain(s: string)
    requires '<' !in s
    ensures StripTags(s) == s
  {
    StripTagsPlainPrefix(s, []);
    assert s + [] == s;
  }

  /** `CloseIndex` finds the first `>`. */
  lemma {:induction false} CloseIndexAt(s: string, k: nat)
    requires k < |s| && s[k] == '>' && forall i :: 0 <= i < k ==> s[i] != '>'
    ensures CloseIndex(s) == k
  {
    if k > 0 {
      CloseIndexAt(s[1..], k - 1);
    }
  }

  /** A tag `<…>` at the front is removed whole. */
  lemma StripTagsTagFirst(t: string, s: string)
    requires '>' !in t
    ensures StripTags("<" + t + ">" + s) == StripTags(s)
  {
    var m := "<" + t + ">" + s;
    var k := |t| + 1;
    assert m[k] == '>';
    forall i | 0 <= i < k
      ensures m[i] != '>'
    {
      if i > 0 {
        assert m[i] == t[i - 1];
      }
    }
    CloseIndexAt(m, k);
    assert m[k + 1..] == s;
  }

  /** A complete tag is removed whole, and the text around it is kept. */
  lemma StripTagsRemovesTag(a: string, t: string, s: string)
    requires '<' !in a && '>' !in t
    ensures StripTags(a + "<" + t + ">" + s) == a + StripTags(s)
  {
    assert a + "<" + t + ">" + s == a + ("<" + t + ">" + s);
    StripTagsPlainPrefix(a, "<" + t + ">" + s);
    StripTagsTagFirst(t, s);
  }

  /** The hydration description: `<br>` variants to `"\n"`, other tags removed, trimmed. */
  function CleanDescription(raw: string): (r: string)
    ensures |r| <= |StripTags(ReplaceBr(raw))|
  {
    Trim(StripTags(ReplaceBr(raw)))
  }

  /** A slice of a tag-free string is tag-free. */
  lemma TagFreeSlice(s: string, a: nat, b: nat)
    requires a <= b <= |s| && TagFree(s)
    ensures TagFree(s[a..b])
  {
    var t := s[a..b];
    forall i, j | 0 <= i < j < |t| && t[i] == '<'
      ensures t[j] != '>'
    {
      assert t[i] == s[a + i] && t[j] == s[a + j];
    }
  }

  /** The cleaned description holds no tag and neither starts nor ends with white space. */
  lemma CleanDescriptionSpec(raw: string)
    ensures TagFree(CleanDescription(raw))
    ensures var r := CleanDescription(raw); r == [] || (!IsSpace(r[0]) && !IsSpace(r[|r| - 1]))
  {
    var stripped := StripTags(ReplaceBr(raw));
    StripTagsSpec(ReplaceBr(raw));
    TrimIsSlice(stripped);
    TagFreeSlice(stripped, TrimOffset(stripped), TrimOffset(stripped) + |Trim(stripped)|);
  }

  /** A description without markup is only trimmed. */
  lemma CleanDescriptionPlain(raw: string)
    requires '<' !in raw
    ensures CleanDescription(raw) == Trim(raw)
  {
    ReplaceBrPlain(raw);
    StripTagsPlain(raw);
  }

  /** `heading || title`, only while the title is empty. */
  function AdTitle(d: Draft, ad: FinnAd): (r: Draft)
    ensures r.(title := d.title) == d
    ensures d.title != "" ==> r == d
    ensures d.title == "" ==> r.title == FirstNonEmpty(ad.heading, ad.title)
  {
    if d.title == "" then d.(title := FirstNonEmpty(ad.heading, ad.title)) else d
  }

  /** The cleaned `description`, only while the description is empty and the raw one is not. */
  function AdDescription(d: Draft, ad: FinnAd): (r: Draft)
    ensures r.(description := d.description) == d
    ensures d.description != "" || ad.description == "" ==> r == d
    ensures d.description == "" && ad.description != "" ==> r.description == CleanDescription(ad.description)
  {
    if d.description == "" && ad.description != "" then d.(description := CleanDescription(ad.description)) else d
  }

  /** `price.total || main_price.amount || 0`, only while the price is falsy. */
  function AdPrice(d: Draft, ad: FinnAd): (r: Draft)
    ensures r.(price := d.price) == d
    ensures d.price.Truthy() ==> r == d
    ensures !d.price.Truthy() ==> r.price == Or(ad.priceTotal, OrZero(ad.mainPriceAmount))
  {
    if !d.price.Truthy() then d.(price := Or(ad.priceTotal, OrZero(ad.mainPriceAmount))) else d
  }

  /** The images, only while none were found, then `user.name || seller.name`
      only while the seller is empty. A `null` entry in `images` throws before
      the seller is read. */
  function AdImagesAndSeller(d: Draft, ad: FinnAd): (r: Draft)
    ensures r.(images := d.images, seller := d.seller) == d
    ensures d.images != [] || !HydrationImages(ad).Assign? ==> r.images == d.images
    ensures d.images == [] && HydrationImages(ad).Assign? ==> r.images == HydrationImages(ad).urls
    ensures d.seller != "" ==> r.seller == d.seller
    ensures d.seller == "" && (d.images != [] || !HydrationImages(ad).Throw?) ==>
      r.seller == FirstNonEmpty(ad.userName, ad.sellerName)
    ensures d.images == [] && HydrationImages(ad).Throw? ==> r == d
  {
    var seller := if d.seller == "" then FirstNonEmpty(ad.userName, ad.sellerName) else d.seller;
    if d.images != [] then d.(seller := seller)
    else
      match HydrationImages(ad)
      case Keep => d.(seller := seller)
      case Assign(urls) => d.(images := urls, seller := seller)
      case Throw => d
  }

  /** The body of `if (adData)`: each field is written only while still falsy. */
  function FillFromAd(d: Draft, ad: FinnAd): (r: Draft)
    ensures d.title != "" ==> r.title == d.title
    ensures d.description != "" ==> r.description == d.description
    ensures d.price.Truthy() ==> r.price == d.price
    ensures d.images != [] ==> r.images == d.images
    ensures d.seller != "" ==> r.seller == d.seller
    ensures d.title == "" ==> r.title == FirstNonEmpty(ad.heading, ad.title)
    ensures d.description == "" && ad.description != "" ==> r.description == CleanDescription(ad.description)
    ensures ad.description == "" ==> r.description == d.description
    ensures !d.price.Truthy() ==> r.price == Or(ad.priceTotal, OrZero(ad.mainPriceAmount))
    ensures d.images == [] && HydrationImages(ad).Assign? ==> r.images == HydrationImages(ad).urls
    ensures !HydrationImages(ad).Assign? ==> r.images == d.images
    ensures d.seller == "" && (d.images != [] || !HydrationImages(ad).Throw?) ==>
      r.seller == FirstNonEmpty(ad.userName, ad.sellerName)
    ensures d.images == [] && HydrationImages(ad).Throw? ==> r.seller == d.seller
  {
    AdImagesAndSeller(AdPrice(AdDescription(AdTitle(d, ad), ad), ad), ad)
  }

  /** Layer 2 runs only while the title or the description is still empty. */
  function HydrationLayer(d: Draft, next: Option<NextData>): (r: Draft)
    ensures d.title != "" && d.description != "" ==> r == d
    ensures next.None? || AdData(next.value).None? ==> r == d
    ensures d.title != "" ==> r.title == d.title
    ensures d.description != "" ==> r.description == d.description
    ensures d.price.Truthy() ==> r.price == d.price
    ensures d.images != [] ==> r.images == d.images
    ensures d.seller != "" ==> r.seller == d.seller
  {
    if d.title != "" && d.description != "" then d
    else if next.None? || AdData(next.value).None? then d
    else FillFromAd(d, AdData(next.value).value)
  }

  // ---------------------------------------------------------------------------
  // Layer 3: markup

  /** `h1`, else `[data-testid="ad-title"]`, only while the title is empty. */
  function MarkupTitle(d: Draft, m: Markup): (r: Draft)
    ensures r.(title := d.title) == d
    ensures d.title != "" ==> r == d
    ensures d.title == "" ==> r.title == FirstNonEmpty(Trim(m.h1), Trim(m.adTitle))
  {
    if d.title != "" then d else d.(title := FirstNonEmpty(Trim(m.h1), Trim(m.adTitle)))
  }

  /** The "Om annonsen" paragraphs replace the description whatever it was. */
  function AboutAd(d: Draft, m: Markup): (r: Draft)
    ensures r.(description := d.description) == d
    ensures NonEmptyTrimmed(m.aboutAd) == [] ==> r == d
    ensures NonEmptyTrimmed(m.aboutAd) != [] ==> r.description == Join(NonEmptyTrimmed(m.aboutAd), "\n\n")
  {
    var ps := NonEmptyTrimmed(m.aboutAd);
    if ps != [] then d.(description := Join(ps, "\n\n")) else d
  }

  /** The description elements, only while the description is empty. */
  function DescriptionFallback(d: Draft, m: Markup): (r: Draft)
    ensures r.(description := d.description) == d
    ensures d.description != "" ==> r == d
    ensures d.description == "" ==> r.description == Trim(m.finnDescription)
  {
    if d.description != "" then d else d.(description := Trim(m.finnDescription))
  }

  /** The "Beskrivelse av varen" paragraphs, only while the description is empty. */
  function ItemDescription(d: Draft, m: Markup): (r: Draft)
    ensures r.(description := d.description) == d
    ensures d.description != "" || NonEmptyTrimmed(m.itemDescription) == [] ==> r == d
    ensures d.description == "" && NonEmptyTrimmed(m.itemDescription) != [] ==>
      r.description == Join(NonEmptyTrimmed(m.itemDescription), "\n\n")
  {
    if d.description != "" then d
    else
      var ps := NonEmptyTrimmed(m.itemDescription);
      if ps != [] then d.(description := Join(ps, "\n\n")) else d
  }

  /** The digit scan of the price text, only while the price is falsy. */
  function MarkupPrice(d: Draft, m: Markup): (r: Draft)
    ensures r.(price := d.price) == d
    ensures d.price.Truthy() ==> r == d
    ensures r.price != d.price ==> r.price.Num? && r.price.n >= 0
  {
    if d.price.Truthy() then d
    else
      match DigitScan(FirstNonEmpty(m.pricingAmount, m.firstT3))
      case Some(n) => d.(price := Num(n))
      case None => d
  }

  const FinnCdn := "images.finncdn.no"

  /** `$(el).attr("src") || $(el).attr("data-src")`. */
  function ImgUrl(img: Img): string {
    FirstNonEmpty(img.src, img.dataSrc)
  }

  /** What one `<img>` pushes: its URL when that is non-empty and on Finn's CDN. */
  function CdnPart(img: Img): (r: seq<string>)
    ensures r == [] || (|r| == 1 && r[0] == ImgUrl(img))
  {
    var url := ImgUrl(img);
    if url != "" && Includes(url, FinnCdn) then [url] else []
  }

  /** The URLs the `<img>` loop pushes, in document order. */
  function CdnImages(imgs: seq<Img>): (r: seq<string>)
    ensures |r| <= |imgs|
  {
    if |imgs| == 0 then []
    else CdnImages(imgs[..|imgs| - 1]) + CdnPart(imgs[|imgs| - 1])
  }

  /** Exactly the non-empty image URLs on Finn's CDN are kept. */
  lemma {:induction false} CdnImagesSpec(imgs: seq<Img>)
    ensures forall u :: u in CdnImages(imgs) <==> exists i :: 0 <= i < |imgs| && u == ImgUrl(imgs[i]) && u != "" && Includes(u, FinnCdn)
  {
    if imgs != [] {
      var init := imgs[..|imgs| - 1];
      CdnImagesSpec(init);
      assert forall i :: 0 <= i < |init| ==> init[i] == imgs[i];
      assert imgs == init + [imgs[|imgs| - 1]];
    }
  }

  /** One more `<img>` adds at most its URL at the end. */
  lemma CdnImagesSnoc(imgs: seq<Img>, img: Img)
    ensures CdnImages(imgs + [img]) == CdnImages(imgs) + CdnPart(img)
  {
    var more := imgs + [img];
    assert more[..|more| - 1] == imgs;
  }

  /** The inductive step of `CdnImagesAppend`. */
  lemma CdnImagesAppendStep(a: seq<Img>, front: seq<Img>, last: Img)
    requires CdnImages(a + front) == CdnImages(a) + CdnImages(front)
    ensures CdnImages((a + front) + [last]) == CdnImages(a) + CdnImages(front + [last])
  {
    CdnImagesSnoc(a + front, last);
    CdnImagesSnoc(front, last);
    ConcatAssoc(CdnImages(a), CdnImages(front), CdnPart(last));
  }

  /** The loop looks at one `<img>` at a time, so the kept URLs come in
      document order and each element contributes at most once. */
  lemma {:induction false} CdnImagesAppend(a: seq<Img>, b: seq<Img>)
    ensures CdnImages(a + b) == CdnImages(a) + CdnImages(b)
    decreases |b|
  {
    if b == [] {
      assert a + b == a;
    } else {
      var front, last := b[..|b| - 1], b[|b| - 1];
      SplitLast(a, b);
      CdnImagesAppend(a, front);
      CdnImagesAppendStep(a, front, last);
    }
  }

  /** One `<img>` contributes its URL exactly when that is non-empty and on
      Finn's CDN. */
  lemma CdnImagesOne(img: Img)
    ensures CdnImages([img]) == if ImgUrl(img) != "" && Includes(ImgUrl(img), FinnCdn) then [ImgUrl(img)] else []
  {
    assert [img][..0] == [];
    assert CdnImages([img]) == [] + CdnPart(img);
  }

  /** The `<img>` fallback, only while no image was found. */
  function MarkupImages(d: Draft, m: Markup): (r: Draft)
    ensures r.(images := d.images) == d
    ensures d.images != [] ==> r == d
    ensures d.images == [] ==> r.images == CdnImages(m.imgs)
  {
    if d.images != [] then d else d.(images := CdnImages(m.imgs))
  }

  /** `[data-testid="seller-name"]`, else `.u-strong`, only while the seller is empty. */
  function MarkupSeller(d: Draft, m: Markup): (r: Draft)
    ensures r.(seller := d.seller) == d
    ensures d.seller != "" ==> r == d
    ensures d.seller == "" ==> r.seller == FirstNonEmpty(Trim(m.sellerName), Trim(m.firstStrong))
  {
    if d.seller != "" then d else d.(seller := FirstNonEmpty(Trim(m.sellerName), Trim(m.firstStrong)))
  }

  /** Layer 3, in source order. */
  function MarkupLayer(d: Draft, m: Markup): Draft {
    var d1 := AboutAd(MarkupTitle(d, m), m);
    var d2 := ItemDescription(DescriptionFallback(d1, m), m);
    MarkupSeller(MarkupImages(MarkupPrice(d2, m), m), m)
  }

  /** All three layers, starting from the initial values of the locals. */
  function Extract(page: Page): Draft {
    MarkupLayer(HydrationLayer(LdLayer(Blank, page.ldBlocks), page.nextData), page.markup)
  }

  // ---------------------------------------------------------------------------
  // The ad id

  /** The capture of `finnkode=(\d+)|item\/(\d+)|\/(\d+)(?:\?|$)` when a match
      starts at index `i`. The three alternatives start with different
      characters, so at most one can match there; the greedy `\d+` takes the
      whole digit run, and the third alternative needs `?` or the end right after it. */
  function IdAt(url: string, i: nat): (r: Option<string>)
    requires i <= |url|
    ensures r.Some? ==> r.value != [] && AllDigits(r.value)
    ensures r.Some? ==> exists k :: i <= k < |url| && url[k] == r.value[0]
  {
    var rest := url[i..];
    if |rest| > 9 && rest[..9] == "finnkode=" && IsDigit(rest[9]) then Some(DigitPrefix(rest[9..]))
    else if |rest| > 5 && rest[..5] == "item/" && IsDigit(rest[5]) then Some(DigitPrefix(rest[5..]))
    else if |rest| > 1 && rest[0] == '/' && IsDigit(rest[1]) then
      var ds := DigitPrefix(rest[1..]);
      if 1 + |ds| == |rest| || rest[1 + |ds|] == '?' then Some(ds) else None
    else None
  }

  /** `ds` stands in `url` at index `k` and is not followed by another digit. */
  predicate WholeRunAt(url: string, ds: string, k: int) {
    OccursAt(url, ds, k) && (k + |ds| == |url| || !IsDigit(url[k + |ds|]))
  }

  /** What a capture is: the whole digit run after `finnkode=`, after `item/`,
      or after `/` when `?` or the end of the URL follows it. */
  lemma IdAtCapture(url: string, i: nat)
    requires i <= |url|
    ensures IdAt(url, i).Some? ==>
      var ds := IdAt(url, i).value;
      || (OccursAt(url, "finnkode=", i) && WholeRunAt(url, ds, i + 9))
      || (OccursAt(url, "item/", i) && WholeRunAt(url, ds, i + 5))
      || (url[i] == '/' && WholeRunAt(url, ds, i + 1) && (i + 1 + |ds| == |url| || url[i + 1 + |ds|] == '?'))
  {
    var rest := url[i..];
    if |rest| > 9 && rest[..9] == "finnkode=" && IsDigit(rest[9]) {
      assert url[i..i + 9] == rest[..9];
      DigitRunAt(url, i + 9);
    } else if |rest| > 5 && rest[..5] == "item/" && IsDigit(rest[5]) {
      assert url[i..i + 5] == rest[..5];
      DigitRunAt(url, i + 5);
    } else if |rest| > 1 && rest[0] == '/' && IsDigit(rest[1]) {
      assert rest[1..] == url[i + 1..];
      DigitRunAt(url, i + 1);
    }
  }

  /** The digit run starting at `k` is a whole run there. */
  lemma DigitRunAt(url: string, k: nat)
    requires k < |url|
    ensures WholeRunAt(url, DigitPrefix(url[k..]), k)
  {
    var ds := DigitPrefix(url[k..]);
    assert url[k..][..|ds|] == url[k..k + |ds|];
    if k + |ds| < |url| {
      assert url[k..][|ds|] == url[k + |ds|];
    }
  }

  /** The leftmost index from `i` on where a match starts, or `|url|`. */
  function MatchStart(url: string, i: nat): (j: nat)
    requires i <= |url|
    ensures i <= j <= |url|
    ensures forall k :: i <= k < j ==> IdAt(url, k).None?
    ensures j < |url| ==> IdAt(url, j).Some?
    decreases |url| - i
  {
    if i == |url| || IdAt(url, i).Some? then i else MatchStart(url, i + 1)
  }

  /** `adIdMatch ? adIdMatch[1] || adIdMatch[2] || adIdMatch[3] : ""`. */
  function AdId(url: string): (id: string)
    ensures AllDigits(id)
  {
    var j := MatchStart(url, 0);
    if j < |url| then IdAt(url, j).value else ""
  }

  /** The id is the capture of the leftmost match, and `""` exactly when no
      position matches. */
  lemma AdIdSpec(url: string)
    ensures AdId(url) == "" <==> forall k :: 0 <= k < |url| ==> IdAt(url, k).None?
    ensures AdId(url) != "" ==>
      exists k :: 0 <= k < |url| && IdAt(url, k) == Some(AdId(url)) && (forall k' :: 0 <= k' < k ==> IdAt(url, k').None?)
  {
    var j := MatchStart(url, 0);
    if j < |url| {
      assert IdAt(url, j) == Some(AdId(url));
    }
  }

  /** A URL without a digit has the empty id. */
  lemma AdIdWithoutDigits(url: string)
    requires forall k :: 0 <= k < |url| ==> !IsDigit(url[k])
    ensures AdId(url) == ""
  {
    var j := MatchStart(url, 0);
    if j < |url| {
      assert false;
    }
  }

  // ---------------------------------------------------------------------------
  // The scraper

  /** `scrapeFinn`: a response that is not OK throws with its status; otherwise the
      three layers run and the record is assembled with at most five images. */
  function Scrape(url: string, response: Response): (r: Result<ScrapedData, string>)
    ensures !IsOk(response) <==> r.Failure?
    ensures r.Failure? ==> r.error == FetchFailureMessage(response.status)
    ensures r.Success? ==> r.value.platform == Finn && r.value.originalUrl == url
    ensures r.Success? ==> |r.value.images| <= 5 && AllDigits(r.value.adId)
  {
    if !IsOk(response) then Failure(FetchFailureMessage(response.status))
    else Success(Assemble(Extract(response.page), AdId(url), Finn, url))
  }

  /** The `.each` loop over the JSON-LD blocks, on the five locals. */
  method ReadLdBlocks(blocks: seq<LdBlock>) returns (title: string, description: string, price: PriceValue, images: seq<string>, seller: string)
    ensures Draft(title, description, price, images, seller) == LdLayer(Blank, blocks)
  {
    title, description, price, images, seller := "", "", Num(0), [], "";
    var i := 0;
    while i < |blocks|
      invariant 0 <= i <= |blocks|
      invariant Draft(title, description, price, images, seller) == LdLayer(Blank, blocks[..i])
    {
      var block := blocks[i];
      if block.Parsed? && block.ld.typ == "Product" {
        var ld := block.ld;
        if title == "" {
          title := ld.name;
        }
        if !price.Truthy() && ld.offers.Some? {
          price := LdPrice(ld.offers.value.price);
        }
        var fromLd := LdImages(ld.image);
        if images == [] && fromLd.Some? {
          images := fromLd.value;
        }
      }
      assert blocks[..i + 1] == blocks[..i] + [block];
      i := i + 1;
    }
    assert blocks[..i] == blocks;
  }

  /** The `.each` callback on one `<p>`: push its trimmed text unless that is empty. */
  method PushTrimmed(paragraphs: seq<string>, p: string) returns (r: seq<string>)
    ensures r == paragraphs + TrimmedPart(p)
  {
    var text := Trim(p);
    r := paragraphs;
    if text != "" {
      r := r + [text];
    } else {
      ConcatEmpty(r);
    }
  }

  /** A `.each` loop over `<p>` elements pushing every non-empty trimmed text. */
  method CollectParagraphs(texts: seq<string>) returns (paragraphs: seq<string>)
    ensures paragraphs == NonEmptyTrimmed(texts)
  {
    paragraphs := [];
    for k := 0 to |texts|
      invariant paragraphs == NonEmptyTrimmed(texts[..k])
    {
      ghost var before := paragraphs;
      paragraphs := PushTrimmed(paragraphs, texts[k]);
      NonEmptyTrimmedTake(texts, k, before, paragraphs);
    }
    TakeAll(texts);
  }

  /** The `<img>` loop: push every `src || data-src` on Finn's image CDN. */
  method CollectCdnImages(imgs: seq<Img>) returns (images: seq<string>)
    ensures images == CdnImages(imgs)
  {
    images := [];
    var n := 0;
    while n < |imgs|
      invariant 0 <= n <= |imgs|
      invariant images == CdnImages(imgs[..n])
    {
      var src := ImgUrl(imgs[n]);
      if src != "" && Includes(src, FinnCdn) {
        images := images + [src];
      }
      assert imgs[..n + 1][..n] == imgs[..n];
      n := n + 1;
    }
    assert imgs[..n] == imgs;
  }

  /** The `if (adData)` block of the hydration `try`, on the five locals. A
      `null` image entry throws before the seller is read. */
  method HydrateFromNextData(title0: string, description0: string, price0: PriceValue, images0: seq<string>, seller0: string, next: Option<NextData>)
    returns (title: string, description: string, price: PriceValue, images: seq<string>, seller: string)
    ensures Draft(title, description, price, images, seller) == HydrationLayer(Draft(title0, description0, price0, images0, seller0), next)
  {
    title, description, price, images, seller := title0, description0, price0, images0, seller0;
    if title == "" || description == "" {
      if next.Some? && AdData(next.value).Some? {
        var ad := AdData(next.value).value;
        ghost var d0 := Draft(title, description, price, images, seller);
        if title == "" {
          title := FirstNonEmpty(ad.heading, ad.title);
        }
        ghost var d1 := Draft(title, description, price, images, seller);
        assert d1 == AdTitle(d0, ad);
        var rawDesc := ad.description;
        if description == "" && rawDesc != "" {
          description := CleanDescription(rawDesc);
        }
        ghost var d2 := Draft(title, description, price, images, seller);
        assert d2 == AdDescription(d1, ad);
        if !price.Truthy() {
          price := Or(ad.priceTotal, OrZero(ad.mainPriceAmount));
        }
        ghost var d3 := Draft(title, description, price, images, seller);
        assert d3 == AdPrice(d2, ad);
        var thrown := false;
        if images == [] {
          match HydrationImages(ad) {
            case Keep =>
            case Assign(urls) => images := urls;
            case Throw => thrown := true;
          }
        }
        if !thrown && seller == "" {
          seller := FirstNonEmpty(ad.userName, ad.sellerName);
        }
        assert Draft(title, description, price, images, seller) == AdImagesAndSeller(d3, ad);
      }
    }
  }

  /** The markup fallbacks, on the five locals, in source order. */
  method FillFromMarkup(title0: string, description0: string, price0: PriceValue, images0: seq<string>, seller0: string, m: Markup)
    returns (title: string, description: string, price: PriceValue, images: seq<string>, seller: string)
    ensures Draft(title, description, price, images, seller) == MarkupLayer(Draft(title0, description0, price0, images0, seller0), m)
  {
    title, description, price, images, seller := title0, description0, price0, images0, seller0;
    ghost var d := Draft(title, description, price, images, seller);
    if title == "" {
      title := FirstNonEmpty(Trim(m.h1), Trim(m.adTitle));
    }
    ghost var d0 := Draft(title, description, price, images, seller);
    assert d0 == MarkupTitle(d, m);

    var paragraphs := CollectParagraphs(m.aboutAd);
    if paragraphs != [] {
      description := Join(paragraphs, "\n\n");
    }
    ghost var d1 := Draft(title, description, price, images, seller);
    assert d1 == AboutAd(d0, m);

    if description == "" {
      description := Trim(m.finnDescription);
    }
    ghost var d2 := Draft(title, description, price, images, seller);
    assert d2 == DescriptionFallback(d1, m);

    if description == "" {
      var more := CollectParagraphs(m.itemDescription);
      if more != [] {
        description := Join(more, "\n\n");
      }
    }
    ghost var d3 := Draft(title, description, price, images, seller);
    assert d3 == ItemDescription(d2, m);

    if !price.Truthy() {
      var priceText := FirstNonEmpty(m.pricingAmount, m.firstT3);
      var scanned := DigitScan(priceText);
      if scanned.Some? {
        price := Num(scanned.value);
      }
    }
    ghost var d4 := Draft(title, description, price, images, seller);
    assert d4 == MarkupPrice(d3, m);

    if images == [] {
      images := CollectCdnImages(m.imgs);
    }
    ghost var d5 := Draft(title, description, price, images, seller);
    assert d5 == MarkupImages(d4, m);

    if seller == "" {
      seller := FirstNonEmpty(Trim(m.sellerName), Trim(m.firstStrong));
    }
    assert Draft(title, description, price, images, seller) == MarkupSeller(d5, m);
  }

  /** `scrapeFinn` as the source writes it: five mutable locals updated by the
      JSON-LD loop, the hydration block and the markup fallbacks in turn. */
  method ScrapeFinn(url: string, response: Response) returns (r: Result<ScrapedData, string>)
    ensures r == Scrape(url, response)
  {
    if !(200 <= response.status <= 299) {
      return Failure(FetchFailureMessage(response.status));
    }
    var page := response.page;
    var title, description, price, images, seller := ReadLdBlocks(page.ldBlocks);
    title, description, price, images, seller := HydrateFromNextData(title, description, price, images, seller, page.nextData);
    title, description, price, images, seller := FillFromMarkup(title, description, price, images, seller, page.markup);
    var adId := AdId(url);
    r := Success(ScrapedData(title, description, price, FirstFive(images), seller, adId, Finn, url));
  }

  // ---------------------------------------------------------------------------
  // Properties of the whole cascade

  /** Nothing before the markup writes the description except the hydration
      layer; the JSON-LD layer leaves it empty, so the hydration layer always runs. */
  lemma HydrationAlwaysConsidered(page: Page)
    ensures LdLayer(Blank, page.ldBlocks).description == ""
    ensures page.nextData.Some? && AdData(page.nextData.value).Some? ==>
      HydrationLayer(LdLayer(Blank, page.ldBlocks), page.nextData) ==
        FillFromAd(LdLayer(Blank, page.ldBlocks), AdData(page.nextData.value).value)
  {
  }

  /** The markup layer never overwrites a title, a price, images or a seller it
      was given, and it overwrites a description only with "Om annonsen" paragraphs. */
  lemma MarkupLayerKeeps(d: Draft, m: Markup)
    ensures d.title != "" ==> MarkupLayer(d, m).title == d.title
    ensures d.price.Truthy() ==> MarkupLayer(d, m).price == d.price
    ensures d.images != [] ==> MarkupLayer(d, m).images == d.images
    ensures d.seller != "" ==> MarkupLayer(d, m).seller == d.seller
    ensures d.description != "" && NonEmptyTrimmed(m.aboutAd) == [] ==> MarkupLayer(d, m).description == d.description
  {
    var d0 := MarkupTitle(d, m);
    var d1 := AboutAd(d0, m);
    var d2 := DescriptionFallback(d1, m);
    var d3 := ItemDescription(d2, m);
    var d4 := MarkupPrice(d3, m);
    var d5 := MarkupImages(d4, m);
    assert MarkupLayer(d, m) == MarkupSeller(d5, m);
  }

  /** A title from a JSON-LD Product block wins over every later source. */
  lemma StructuredTitleWins(page: Page)
    requires FirstProductName(page.ldBlocks) != ""
    ensures Extract(page).title == FirstProductName(page.ldBlocks)
  {
    LdLayerFirstWriterWins(Blank, page.ldBlocks);
    var afterLd := LdLayer(Blank, page.ldBlocks);
    MarkupLayerKeeps(HydrationLayer(afterLd, page.nextData), page.markup);
  }

  /** Images from a JSON-LD Product block win over every later source. */
  lemma StructuredImagesWin(page: Page)
    requires FirstProductImages(page.ldBlocks) != []
    ensures Extract(page).images == FirstProductImages(page.ldBlocks)
  {
    LdLayerFirstWriterWins(Blank, page.ldBlocks);
    var afterLd := LdLayer(Blank, page.ldBlocks);
    MarkupLayerKeeps(HydrationLayer(afterLd, page.nextData), page.markup);
  }

  /** A truthy JSON-LD price wins over every later source. */
  lemma StructuredPriceWins(page: Page)
    requires FirstProductPrice(page.ldBlocks).Some?
    ensures Extract(page).price == FirstProductPrice(page.ldBlocks).value
  {
    LdLayerFirstWriterWins(Blank, page.ldBlocks);
    var afterLd := LdLayer(Blank, page.ldBlocks);
    MarkupLayerKeeps(HydrationLayer(afterLd, page.nextData), page.markup);
  }

  /** At least one non-empty "Om annonsen" paragraph: the description is those
      paragraphs joined by a blank line, whatever the earlier layers found. */
  lemma AboutAdOverrides(page: Page)
    requires NonEmptyTrimmed(page.markup.aboutAd) != []
    ensures Extract(page).description == Join(NonEmptyTrimmed(page.markup.aboutAd), "\n\n")
  {
    NonEmptyTrimmedNoEmpty(page.markup.aboutAd);
    JoinedParagraphsNonEmpty(NonEmptyTrimmed(page.markup.aboutAd));
  }

  /** Without "Om annonsen" paragraphs, a cleaned hydration description that is
      not empty is the description. */
  lemma HydrationDescriptionKept(page: Page, ad: FinnAd)
    requires page.nextData.Some? && AdData(page.nextData.value) == Some(ad)
    requires NonEmptyTrimmed(page.markup.aboutAd) == []
    requires ad.description != "" && CleanDescription(ad.description) != ""
    ensures Extract(page).description == CleanDescription(ad.description)
  {
    var afterLd := LdLayer(Blank, page.ldBlocks);
    var hydrated := HydrationLayer(afterLd, page.nextData);
    assert hydrated == FillFromAd(afterLd, ad);
    assert hydrated.description == CleanDescription(ad.description);
    var m := page.markup;
    var d1 := AboutAd(MarkupTitle(hydrated, m), m);
    assert d1.description == hydrated.description;
    var d2 := ItemDescription(DescriptionFallback(d1, m), m);
    assert d2.description == d1.description;
  }

  /** When the price comes from the markup, it is the non-negative value of the
      first digit run. */
  lemma MarkupPriceIsScan(d: Draft, m: Markup)
    requires !d.price.Truthy()
    requires DigitScan(FirstNonEmpty(m.pricingAmount, m.firstT3)).Some?
    ensures MarkupLayer(d, m).price == Num(DigitScan(FirstNonEmpty(m.pricingAmount, m.firstT3)).value)
    ensures MarkupLayer(d, m).price.n >= 0
  {
  }

  /** The `<img>` fallback is used exactly when no earlier layer found images,
      and then every URL is on Finn's CDN. */
  lemma ImagesFallback(d: Draft, m: Markup)
    ensures d.images == [] ==> MarkupLayer(d, m).images == CdnImages(m.imgs)
    ensures d.images == [] ==> forall i :: 0 <= i < |MarkupLayer(d, m).images| ==> Includes(MarkupLayer(d, m).images[i], FinnCdn)
    ensures d.images != [] ==> MarkupLayer(d, m).images == d.images
  {
    MarkupLayerKeeps(d, m);
    CdnImagesSpec(m.imgs);
    var d3 := ItemDescription(DescriptionFallback(AboutAd(MarkupTitle(d, m), m), m), m);
    var d4 := MarkupPrice(d3, m);
    assert d4.images == d.images;
    assert MarkupLayer(d, m).images == MarkupImages(d4, m).images;
  }

  /** A malformed block anywhere among the JSON-LD blocks changes nothing. */
  lemma MalformedBlockIgnored(page: Page, k: nat)
    requires k <= |page.ldBlocks|
    ensures Extract(page.(ldBlocks := page.ldBlocks[..k] + [Malformed] + page.ldBlocks[k..])) == Extract(page)
  {
    LdLayerSkipsNonProduct(Blank, page.ldBlocks[..k], Malformed, page.ldBlocks[k..]);
    assert page.ldBlocks[..k] + page.ldBlocks[k..] == page.ldBlocks;
  }
}
