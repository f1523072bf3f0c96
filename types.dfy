/** The records the application passes around (src/lib/types.ts): the listing a
    scraper returns and the receipt the user fills in. */
module Types {

  /** The closed set of platforms the detector can answer. */
  datatype Platform = Finn | Tise | Unknown

  /** The string the TypeScript union type uses for each platform. */
  function PlatformName(p: Platform): (s: string)
    ensures s == "finn" <==> p == Finn
    ensures s == "tise" <==> p == Tise
    ensures s != ""
  {
    match p
    case Finn => "finn"
    case Tise => "tise"
    case Unknown => "unknown"
  }

  /** What a `price` variable can hold at run time. It is typed `number`, but a
      string from a JSON payload can be stored in it unchanged, and `parseInt`
      can leave `NaN` in it. Fractional numbers are not modelled. */
  datatype PriceValue = Num(n: int) | NaN | Text(s: string) {
    /** JavaScript truthiness: `0`, `NaN` and `""` are falsy. */
    predicate Truthy() {
      match this
      case Num(n) => n != 0
      case NaN => false
      case Text(s) => s != ""
    }
  }

  /** `ScrapedData`: the normalised listing a scraper returns. */
  datatype ScrapedData = ScrapedData(
    title: string,
    description: string,
    price: PriceValue,
    images: seq<string>,
    seller: string,
    adId: string,
    platform: Platform,
    originalUrl: string)

  /** `ReceiptData`. The optional string fields are `""` when unset. */
  datatype ReceiptData = ReceiptData(
    productName: string,
    description: string,
    price: PriceValue,
    productImage: string,
    purchaseDate: string,
    location: string,
    paymentMethod: string,
    adId: string,
    originalUrl: string,
    platform: string,
    sellerName: string,
    sellerPhone: string,
    sellerEmail: string,
    buyerName: string,
    buyerPhone: string,
    buyerEmail: string,
    sellerSignature: string,
    buyerSignature: string)
}
