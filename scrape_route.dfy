/** The `POST /api/scrape` handler (src/app/api/scrape/route.ts): three checks
    on the request, then the scrape, with every throw turned into a 500. */
module ScrapeRoute {
  import opened Wrappers
  import opened Types
  import opened PageInput
  import Cascade
  import Scrapers

  /** A thrown value: an `Error` carries its `message`; anything else does not. */
  datatype Thrown = ErrorObject(message: string) | NonError

  /** The `url` property of the request body: falsy and not a string
      (absent, `null`, `0`, `false`), truthy but not a string, or a string. */
  datatype UrlField = NoUrl | NonStringUrl | UrlText(s: string)

  /** The request: `request.json()` (with the destructuring) either throws or
      yields the body's `url`. */
  datatype Request = Unreadable(thrown: Thrown) | Json(url: UrlField)

  /** The JSON response and its status: `{ success, data }` or `{ success, error }`. */
  datatype ApiResponse = ApiResponse(status: nat, success: bool, data: Option<ScrapedData>, error: Option<string>)

  const UrlRequiredMessage := "URL er p" + "\U{00E5}" + "krevd"
  const InvalidUrlMessage := "Ugyldig URL-format"
  const UnknownErrorMessage := "En ukjent feil oppstod"

  /** `error instanceof Error ? error.message : "En ukjent feil oppstod"`. */
  function CaughtMessage(t: Thrown): (m: string)
    ensures t.ErrorObject? ==> m == t.message
  {
    match t
    case ErrorObject(message) => message
    case NonError => UnknownErrorMessage
  }

  function Rejected(message: string): ApiResponse {
    ApiResponse(400, false, None, Some(message))
  }

  function Crashed(t: Thrown): ApiResponse {
    ApiResponse(500, false, None, Some(CaughtMessage(t)))
  }

  /** The request passes all three checks: a non-empty string, accepted by the
      `URL` constructor, naming a known platform. */
  predicate Accepted(url: UrlField, parses: string -> bool) {
    url.UrlText? && url.s != "" && parses(url.s) && Scrapers.DetectPlatform(url.s) != Unknown
  }

  /** The handler. `parses` stands for "`new URL(url)` does not throw" and
      `scrape` for `await scrapeUrl(url)`, which either resolves or throws. */
  function Post(request: Request, parses: string -> bool, scrape: string -> Result<ScrapedData, Thrown>): (r: ApiResponse)
    ensures r.success <==> r.status == 200
    ensures r.success ==> r.data.Some? && r.error.None?
    ensures !r.success ==> r.data.None? && r.error.Some? && (r.status == 400 || r.status == 500)
    ensures r.status == 400 <==> request.Json? && !Accepted(request.url, parses)
  {
    match request
    case Unreadable(t) => Crashed(t)
    case Json(url) =>
      if !url.UrlText? || url.s == "" then Rejected(UrlRequiredMessage)
      else if !parses(url.s) then Rejected(InvalidUrlMessage)
      else if Scrapers.DetectPlatform(url.s) == Unknown then Rejected(Scrapers.UnknownPlatformMessage)
      else
        match scrape(url.s)
        case Success(data) => ApiResponse(200, true, Some(data), None)
        case Failure(t) => Crashed(t)
  }

  /** The checks run in order and the first that fails decides the message. */
  lemma FirstFailingCheckDecides(request: Request, parses: string -> bool, scrape: string -> Result<ScrapedData, Thrown>)
    requires request.Json?
    ensures (!request.url.UrlText? || request.url.s == "") ==>
      Post(request, parses, scrape) == Rejected(UrlRequiredMessage)
    ensures (request.url.UrlText? && request.url.s != "" && !parses(request.url.s)) ==>
      Post(request, parses, scrape) == Rejected(InvalidUrlMessage)
    ensures (request.url.UrlText? && request.url.s != "" && parses(request.url.s) &&
      Scrapers.DetectPlatform(request.url.s) == Unknown) ==>
      Post(request, parses, scrape) == Rejected(Scrapers.UnknownPlatformMessage)
  {
  }

  /** A rejected or unreadable request never reaches the scraper: the response
      is the same whatever the scrape would have done. */
  lemma NoScrapeUnlessAccepted(request: Request, parses: string -> bool, s1: string -> Result<ScrapedData, Thrown>, s2: string -> Result<ScrapedData, Thrown>)
    requires !(request.Json? && Accepted(request.url, parses))
    ensures Post(request, parses, s1) == Post(request, parses, s2)
  {
  }

  /** An accepted request returns the scraped record untouched with status 200,
      or the thrown error's message with status 500. */
  lemma AcceptedRequestScrapes(url: string, parses: string -> bool, scrape: string -> Result<ScrapedData, Thrown>)
    requires Accepted(UrlText(url), parses)
    ensures scrape(url).Success? ==> Post(Json(UrlText(url)), parses, scrape) == ApiResponse(200, true, Some(scrape(url).value), None)
    ensures scrape(url).Failure? ==> Post(Json(UrlText(url)), parses, scrape) == Crashed(scrape(url).error)
  {
  }

  /** `scrapeUrl` as the handler sees it: its `Error`s are thrown, not returned. */
  function ScrapeWith(response: Response): (scrape: string -> Result<ScrapedData, Thrown>)
    ensures forall url :: scrape(url).Success? <==> Scrapers.ScrapeUrl(url, response).Success?
  {
    url =>
      match Scrapers.ScrapeUrl(url, response)
      case Success(data) => Success(data)
      case Failure(message) => Failure(ErrorObject(message))
  }

  /** End to end, for an accepted URL: status 200 exactly when the listing page
      was fetched with an OK status, the record then naming the detected
      platform and the requested URL; otherwise 500 with the fetch failure message. */
  lemma EndToEnd(url: string, parses: string -> bool, response: Response)
    requires Accepted(UrlText(url), parses)
    ensures var r := Post(Json(UrlText(url)), parses, ScrapeWith(response));
      && (r.status == 200 <==> IsOk(response))
      && (r.success ==> r.data.value.platform == Scrapers.DetectPlatform(url) && r.data.value.originalUrl == url)
      && (!IsOk(response) ==> r == Crashed(ErrorObject(Cascade.FetchFailureMessage(response.status))))
  {
    Scrapers.ScrapeUrlDispatches(url, response);
  }

  /** The handler and `scrapeUrl` reject an unknown platform with the same message. */
  lemma UnknownPlatformSameMessage(url: string, parses: string -> bool, scrape: string -> Result<ScrapedData, Thrown>, response: Response)
    requires url != "" && parses(url) && Scrapers.DetectPlatform(url) == Unknown
    ensures Post(Json(UrlText(url)), parses, scrape).error == Some(Scrapers.ScrapeUrl(url, response).error)
  {
  }
}
