/** The home page hand-off (src/app/page.tsx, `handleDataFetched`): a scraped
    listing becomes a receipt draft, the buyer's and the trade's fields blank. */
module Home {
  import opened JsText
  import opened Types

  /** `new Date().toISOString().split("T")[0]`, the clock reading given as its ISO text. */
  function Today(nowIso: string): (d: string)
    ensures 'T' !in d && |d| <= |nowIso| && d == nowIso[..|d|]
    ensures |d| < |nowIso| ==> nowIso[|d|] == 'T'
  {
    BeforeFirst(nowIso, 'T')
  }

  /** An ISO timestamp `YYYY-MM-DDTHH:MM:SS.sssZ` yields its ten-character date. */
  lemma TodayOfIsoTimestamp(nowIso: string)
    requires |nowIso| > 10 && nowIso[10] == 'T'
    requires forall i :: 0 <= i < 10 ==> nowIso[i] != 'T'
    ensures Today(nowIso) == nowIso[..10]
  {
    var d := Today(nowIso);
    if |d| != 10 {
      assert false;
    }
  }

  /** The `receiptData` literal. */
  function FromScraped(data: ScrapedData, nowIso: string): (r: ReceiptData)
    ensures r.productImage == if |data.images| > 0 then data.images[0] else ""
    ensures r.purchaseDate == Today(nowIso)
    ensures r.platform == PlatformName(data.platform)
    ensures r.location == r.paymentMethod == r.sellerPhone == r.sellerEmail == ""
    ensures r.buyerName == r.buyerPhone == r.buyerEmail == r.sellerSignature == r.buyerSignature == ""
  {
    ReceiptData(
      data.title, data.description, data.price,
      if |data.images| > 0 then data.images[0] else "",
      Today(nowIso), "", "", data.adId, data.originalUrl, PlatformName(data.platform), data.seller,
      "", "", "", "", "", "", "")
  }

  /** The platform name's inverse: the receipt's `platform` string read back. */
  function PlatformOf(name: string): (p: Platform)
    ensures name == "finn" ==> p == Finn
    ensures name == "tise" ==> p == Tise
  {
    if name == "finn" then Finn else if name == "tise" then Tise else Unknown
  }

  /** The receipt carries the listing: title, description, price, first image,
      seller, ad id, URL and platform can all be read back from it. */
  lemma ReceiptKeepsListing(data: ScrapedData, nowIso: string)
    ensures var r := FromScraped(data, nowIso);
      && r.productName == data.title && r.description == data.description && r.price == data.price
      && r.sellerName == data.seller && r.adId == data.adId && r.originalUrl == data.originalUrl
      && PlatformOf(r.platform) == data.platform
      && (|data.images| > 0 ==> r.productImage == data.images[0])
  {
    var r := FromScraped(data, nowIso);
    if data.platform == Unknown {
      assert r.platform == "unknown";
    }
  }

  /** The clock only reaches the purchase date. */
  lemma ClockOnlySetsDate(data: ScrapedData, now1: string, now2: string)
    ensures FromScraped(data, now1).(purchaseDate := "") == FromScraped(data, now2).(purchaseDate := "")
  {
  }
}
