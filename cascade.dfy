/** What the Finn and Tise scrapers share: the five fields they fill layer by
    layer, JavaScript's `||` on those fields, the JSON-LD image reading, the
    paragraph collection, the markup price parse, and the assembly of the result. */
module Cascade {
  import opened Wrappers
  import opened JsText
  import opened Types
  import opened PageInput

  /** The five locals `title`, `description`, `price`, `images` and `seller`. */
  datatype Draft = Draft(
    title: string,
    description: string,
    price: PriceValue,
    images: seq<string>,
    seller: string)

  /** Their initial values: `""`, `""`, `0`, `[]`, `""`. */
  const Blank := Draft("", "", Num(0), [], "")

  /** `a || b` on strings: `a` unless it is empty, and empty only when both are. */
  function FirstNonEmpty(a: string, b: string): (r: string)
    ensures r == a || r == b
    ensures a != "" ==> r == a
    ensures r == "" <==> a == "" && b == ""
  {
    if a != "" then a else b
  }

  predicate ScalarTruthy(v: JsonScalar) {
    match v
    case Missing => false
    case JsonNumber(n) => n != 0
    case JsonString(s) => s != ""
  }

  /** `v || fallback`, where `v` comes from a JSON payload. A string is kept as a
      string: nothing here coerces it to a number. */
  function Or(v: JsonScalar, fallback: PriceValue): (p: PriceValue)
    ensures ScalarTruthy(v) ==> p.Truthy()
    ensures v.JsonNumber? && v.n != 0 ==> p == Num(v.n)
    ensures v.JsonString? && v.s != "" ==> p == Text(v.s)
    ensures !ScalarTruthy(v) ==> p == fallback
  {
    match v
    case JsonNumber(n) => if n != 0 then Num(n) else fallback
    case JsonString(s) => if s != "" then Text(s) else fallback
    case Missing => fallback
  }

  /** `v || 0`: truthy exactly when `v` is, and `0` when it is not. */
  function OrZero(v: JsonScalar): (p: PriceValue)
    ensures p.Truthy() <==> ScalarTruthy(v)
    ensures !ScalarTruthy(v) ==> p == Num(0)
  {
    Or(v, Num(0))
  }

  predicate HasNull(entries: seq<ImageEntry>) {
    exists i :: 0 <= i < |entries| && entries[i].EntryNull?
  }

  /** How an image array assignment inside a `try` ends: nothing assigned,
      a list assigned, or a throw (a `null` entry) that ends the layer. */
  datatype ImagesAssignment = Keep | Assign(urls: seq<string>) | Throw

  /** `typeof img === "string" ? img : img.url || ""`. */
  function LdEntryUrl(e: ImageEntry): (r: string)
    ensures e.EntryString? ==> r == e.s
    ensures e.EntryObject? ==> r == e.url
  {
    match e
    case EntryString(s) => s
    case EntryObject(url, _) => url
    case EntryNull => ""
  }

  /** What the JSON-LD image code assigns to `images`: an array is mapped entry
      by entry, a non-empty string becomes a one-element list, and anything else
      assigns nothing. An array holding `null` makes `img.url` throw inside the
      block's `try`, so nothing is assigned either. */
  function LdImages(image: LdImage): (r: Option<seq<string>>)
    ensures r.Some? ==> image.ImageArray? || image.ImageString?
    ensures image.ImageString? ==> (r.Some? <==> image.url != "")
    ensures image.ImageString? && r.Some? ==> r.value == [image.url]
    ensures image.ImageArray? ==> (r.Some? <==> !HasNull(image.entries))
    ensures image.ImageArray? && r.Some? ==>
      |r.value| == |image.entries| &&
      forall i :: 0 <= i < |r.value| ==> r.value[i] == LdEntryUrl(image.entries[i])
  {
    match image
    case ImageArray(entries) =>
      if HasNull(entries) then None
      else Some(seq(|entries|, i requires 0 <= i < |entries| => LdEntryUrl(entries[i])))
    case ImageString(url) => if url != "" then Some([url]) else None
    case _ => None
  }

  /** What one paragraph pushes: its trimmed text, unless that is empty. */
  function TrimmedPart(p: string): (r: seq<string>)
    ensures r == [] || (|r| == 1 && r[0] != "")
  {
    var t := Trim(p);
    if t != "" then [t] else []
  }

  /** The paragraphs a `.each` loop over `<p>` elements pushes: each text
      trimmed, in document order, the empty ones skipped. */
  function NonEmptyTrimmed(ps: seq<string>): (r: seq<string>)
    ensures |r| <= |ps|
  {
    if |ps| == 0 then []
    else NonEmptyTrimmed(ps[..|ps| - 1]) + TrimmedPart(ps[|ps| - 1])
  }

  /** None of the collected paragraphs is empty. */
  lemma {:induction false} NonEmptyTrimmedNoEmpty(ps: seq<string>)
    ensures forall i :: 0 <= i < |NonEmptyTrimmed(ps)| ==> NonEmptyTrimmed(ps)[i] != ""
  {
    if ps != [] {
      NonEmptyTrimmedNoEmpty(ps[..|ps| - 1]);
    }
  }

  /** One more paragraph adds at most its trimmed text at the end. */
  lemma NonEmptyTrimmedSnoc(ps: seq<string>, p: string)
    ensures NonEmptyTrimmed(ps + [p]) == NonEmptyTrimmed(ps) + TrimmedPart(p)
  {
    var qs := ps + [p];
    assert qs[..|qs| - 1] == ps;
  }

  /** One more step of the paragraph loop: with `before` collected from the
      first `k` texts, adding what the next text pushes gives what is
      collected from the first `k + 1`. */
  lemma NonEmptyTrimmedTake(ps: seq<string>, k: nat, before: seq<string>, after: seq<string>)
    requires k < |ps|
    requires before == NonEmptyTrimmed(ps[..k]) && after == before + TrimmedPart(ps[k])
    ensures after == NonEmptyTrimmed(ps[..k + 1])
  {
    TakeSnoc(ps, k);
    NonEmptyTrimmedSnoc(ps[..k], ps[k]);
  }

  /** The inductive step of `NonEmptyTrimmedAppend`: one more paragraph at
      the end of the second part. */
  lemma NonEmptyTrimmedAppendStep(a: seq<string>, front: seq<string>, last: string)
    requires NonEmptyTrimmed(a + front) == NonEmptyTrimmed(a) + NonEmptyTrimmed(front)
    ensures NonEmptyTrimmed((a + front) + [last]) == NonEmptyTrimmed(a) + NonEmptyTrimmed(front + [last])
  {
    NonEmptyTrimmedSnoc(a + front, last);
    NonEmptyTrimmedSnoc(front, last);
    ConcatAssoc(NonEmptyTrimmed(a), NonEmptyTrimmed(front), TrimmedPart(last));
  }

  /** Collecting works paragraph by paragraph, so the collected texts keep the
      document order and each paragraph contributes at most once. */
  lemma {:induction false} NonEmptyTrimmedAppend(a: seq<string>, b: seq<string>)
    ensures NonEmptyTrimmed(a + b) == NonEmptyTrimmed(a) + NonEmptyTrimmed(b)
    decreases |b|
  {
    if b == [] {
      assert a + b == a;
    } else {
      var front, last := b[..|b| - 1], b[|b| - 1];
      SplitLast(a, b);
      NonEmptyTrimmedAppend(a, front);
      NonEmptyTrimmedAppendStep(a, front, last);
    }
  }

  /** One paragraph contributes its trimmed text, unless that is empty. */
  lemma NonEmptyTrimmedOne(p: string)
    ensures NonEmptyTrimmed([p]) == if Trim(p) != "" then [Trim(p)] else []
  {
    assert [p][..0] == [];
    assert NonEmptyTrimmed([p]) == [] + TrimmedPart(p);
  }

  /** No paragraph is collected exactly when every paragraph trims to nothing. */
  lemma {:induction false} NonEmptyTrimmedIsEmpty(ps: seq<string>)
    ensures NonEmptyTrimmed(ps) == [] <==> forall i :: 0 <= i < |ps| ==> Trim(ps[i]) == ""
  {
    if ps != [] {
      var front, last := ps[..|ps| - 1], ps[|ps| - 1];
      assert ps == front + [last];
      NonEmptyTrimmedSnoc(front, last);
      NonEmptyTrimmedIsEmpty(front);
      AllTrimEmptySnoc(front, last);
    }
  }

  lemma AllTrimEmptySnoc(front: seq<string>, last: string)
    ensures (forall i :: 0 <= i < |front + [last]| ==> Trim((front + [last])[i]) == "") <==>
      (forall i :: 0 <= i < |front| ==> Trim(front[i]) == "") && Trim(last) == ""
  {
    var ps := front + [last];
    assert ps[|front|] == last;
    assert forall i :: 0 <= i < |front| ==> ps[i] == front[i];
  }

  /** Collected paragraphs joined by a blank line are never empty. */
  lemma JoinedParagraphsNonEmpty(ps: seq<string>)
    requires ps != [] && forall i :: 0 <= i < |ps| ==> ps[i] != ""
    ensures Join(ps, "\n\n") != ""
  {
    assert |ps[0]| > 0;
  }

  /** The markup price parse `parseInt(text.replace(/\s/g, "").match(/(\d+)/)[1], 10)`:
      the value of the first run of digits once all white space is gone, or
      `None` when there is no match (the price is then left alone). */
  function DigitScan(text: string): (r: Option<nat>) {
    match FirstDigitRun(RemoveSpaces(text))
    case None => None
    case Some(ds) => Some(DigitValue(ds))
  }

  /** The scan finds nothing exactly when the text holds no digit at all. */
  lemma DigitScanNone(text: string)
    ensures DigitScan(text).None? <==> forall i :: 0 <= i < |text| ==> !IsDigit(text[i])
  {
    var stripped := RemoveSpaces(text);
    RemoveSpacesKeeps(text);
    if exists i :: 0 <= i < |text| && IsDigit(text[i]) {
      var i :| 0 <= i < |text| && IsDigit(text[i]);
      assert text[i] in stripped;
    }
    if exists i :: 0 <= i < |stripped| && IsDigit(stripped[i]) {
      var i :| 0 <= i < |stripped| && IsDigit(stripped[i]);
      assert stripped[i] in text;
    }
  }

  /** `parseInt` on the digit run gives the same number as `DigitValue`. */
  lemma DigitScanIsParseInt(text: string)
    requires DigitScan(text).Some?
    ensures ParseInt(FirstDigitRun(RemoveSpaces(text)).value) == Some(DigitScan(text).value as int)
  {
    var ds := FirstDigitRun(RemoveSpaces(text)).value;
    ParseIntOfDigits(ds);
  }

  /** `images.slice(0, 5)`: the first five, in order. */
  function FirstFive(images: seq<string>): (r: seq<string>)
    ensures |r| == if |images| < 5 then |images| else 5
    ensures r == images[..|r|]
  {
    if |images| <= 5 then images else images[..5]
  }

  /** The object literal each scraper returns. */
  function Assemble(d: Draft, adId: string, platform: Platform, url: string): (r: ScrapedData)
    ensures |r.images| <= 5 && |r.images| <= |d.images| && r.images == d.images[..|r.images|]
    ensures r.platform == platform && r.originalUrl == url
    ensures r.title == d.title && r.description == d.description && r.price == d.price
    ensures r.seller == d.seller && r.adId == adId
  {
    ScrapedData(d.title, d.description, d.price, FirstFive(d.images), d.seller, adId, platform, url)
  }

  const FetchFailurePrefix := "Kunne ikke hente annonsen: "

  /** The message thrown for a response that is not OK. */
  function FetchFailureMessage(status: nat): string {
    FetchFailurePrefix + DecimalString(status)
  }

  /** The status can be read back from the message. */
  lemma FetchFailureCarriesStatus(status: nat)
    ensures |FetchFailureMessage(status)| > |FetchFailurePrefix|
    ensures FetchFailureMessage(status)[..|FetchFailurePrefix|] == FetchFailurePrefix
    ensures ParseInt(FetchFailureMessage(status)[|FetchFailurePrefix|..]) == Some(status as int)
  {
    assert FetchFailureMessage(status)[|FetchFailurePrefix|..] == DecimalString(status);
    ParseIntOfDecimal(status);
  }
}
