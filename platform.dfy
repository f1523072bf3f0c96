/** The platform detector and dispatcher (src/lib/scrapers/index.ts). */
module Scrapers {
  import opened Wrappers
  import opened JsText
  import opened Types
  import opened PageInput
  import Cascade
  import Finn
  import Tise

  const FinnFragment := "finn.no"
  const TiseComFragment := "tise.com"
  const TiseNoFragment := "tise.no"

  /** `detectPlatform`: substring tests on the lower-cased URL, Finn's first. */
  function DetectPlatform(url: string): (p: Platform)
    ensures p == Finn <==> Includes(Lower(url), FinnFragment)
    ensures p == Tise <==> (!Includes(Lower(url), FinnFragment) &&
      (Includes(Lower(url), TiseComFragment) || Includes(Lower(url), TiseNoFragment)))
  {
    var lowerUrl := Lower(url);
    if Includes(lowerUrl, FinnFragment) then Finn
    else if Includes(lowerUrl, TiseComFragment) || Includes(lowerUrl, TiseNoFragment) then Tise
    else Unknown
  }

  /** A URL containing none of the three fragments, in any case, is unknown. */
  lemma UnknownIffNoFragment(url: string)
    ensures DetectPlatform(url) == Unknown <==>
      (!Includes(Lower(url), FinnFragment) && !Includes(Lower(url), TiseComFragment) && !Includes(Lower(url), TiseNoFragment))
  {
  }

  /** Detection ignores case: lower-casing or upper-casing the URL first changes nothing. */
  lemma DetectIgnoresCase(url: string)
    ensures DetectPlatform(Lower(url)) == DetectPlatform(url)
    ensures DetectPlatform(Upper(url)) == DetectPlatform(url)
  {
    LowerIdempotent(url);
    LowerOfUpper(url);
  }

  /** A fragment that lower-cases to `sub`, placed anywhere, is found. */
  lemma FragmentFound(a: string, frag: string, b: string, sub: string)
    requires Lower(frag) == sub
    ensures Includes(Lower(a + frag + b), sub)
  {
    LowerAppend(a + frag, b);
    LowerAppend(a, frag);
    var l := Lower(a + frag + b);
    assert l == Lower(a) + sub + Lower(b);
    assert l[|a|..|a| + |sub|] == sub;
    assert OccursAt(l, sub, |a|);
  }

  /** `finn.no` in any case, anywhere, makes the URL a Finn URL, even when it
      also names Tise: the Finn test comes first. */
  lemma FinnFragmentWins(a: string, frag: string, b: string)
    requires Lower(frag) == FinnFragment
    ensures DetectPlatform(a + frag + b) == Finn
  {
    FragmentFound(a, frag, b, FinnFragment);
  }

  /** Without `finn.no`, `tise.com` or `tise.no` in any case, anywhere, makes it a Tise URL. */
  lemma TiseFragmentFound(a: string, frag: string, b: string)
    requires Lower(frag) == TiseComFragment || Lower(frag) == TiseNoFragment
    requires !Includes(Lower(a + frag + b), FinnFragment)
    ensures DetectPlatform(a + frag + b) == Tise
  {
    FragmentFound(a, frag, b, Lower(frag));
  }

  /** The error for a URL of neither platform (the `ø` is kept apart so that
      the verifier still sees the text as a literal). */
  const UnknownPlatformMessage := "Ukjent plattform. St" + "\U{00F8}" + "tter kun Finn.no og Tise."

  /** A fetch failure can never be mistaken for the unknown-platform error. */
  lemma FetchFailureIsNotUnknown(status: nat)
    ensures Cascade.FetchFailureMessage(status) != UnknownPlatformMessage
  {
    var m := Cascade.FetchFailureMessage(status);
    assert m == Cascade.FetchFailurePrefix + DecimalString(status);
    assert m[0] == Cascade.FetchFailurePrefix[0] == 'K';
    assert UnknownPlatformMessage[0] == 'U';
  }

  /** `scrapeUrl`: the scraper for the detected platform, given the outcome of
      its fetch, or the unknown-platform error without any scraper at all. */
  function ScrapeUrl(url: string, response: Response): (r: Result<ScrapedData, string>)
    ensures DetectPlatform(url) == Unknown <==> r == Failure(UnknownPlatformMessage)
    ensures r.Success? ==> r.value.platform == DetectPlatform(url) && r.value.originalUrl == url
    ensures r.Success? ==> |r.value.images| <= 5
  {
    FetchFailureIsNotUnknown(response.status);
    match DetectPlatform(url)
    case Finn => Finn.Scrape(url, response)
    case Tise => Tise.Scrape(url, response)
    case Unknown => Failure(UnknownPlatformMessage)
  }

  /** The scraper called is exactly the one for the detected platform. */
  lemma ScrapeUrlDispatches(url: string, response: Response)
    ensures DetectPlatform(url) == Finn ==> ScrapeUrl(url, response) == Finn.Scrape(url, response)
    ensures DetectPlatform(url) == Tise ==> ScrapeUrl(url, response) == Tise.Scrape(url, response)
  {
  }

  /** For an unknown platform nothing is fetched: the outcome does not depend on the response. */
  lemma UnknownNeedsNoFetch(url: string, r1: Response, r2: Response)
    requires DetectPlatform(url) == Unknown
    ensures ScrapeUrl(url, r1) == ScrapeUrl(url, r2)
  {
  }
}
