# Bruktkvittering: listing extraction, modelled in Dafny

Bruktkvittering turns a second-hand listing on Finn.no or Tise into a
purchase receipt. Its core is the extraction engine: given a listing URL it
decides the platform from the URL text, fetches the page and fills five
fields (title, description, price, images, seller) from up to three sources
of decreasing reliability: JSON-LD blocks, the `__NEXT_DATA__` hydration
payload and finally CSS-selector fallbacks on the markup. It also takes the
listing id from the URL and keeps at most five images. The HTTP endpoint
`POST /api/scrape` puts three checks in front of it and turns every throw
into a 500 answer. The home page then maps the listing onto a receipt
draft, and the export buttons name the downloaded files.

The model is split as the program is:

- `js_text.dfy` (`JsText`): the JavaScript string built-ins the code relies
  on. These are `toLowerCase`, `includes`, `trim`, `replace(/\s/g, "")`,
  `match(/(\d+)/)`, `parseInt`, `join`, `split(c)[0]` and `replace(/-/g, "")`.
- `types.dfy`, `page_input.dfy` (`Types`, `PageInput`): the records of
  `src/lib/types.ts` and what one fetch hands the scrapers. That is the
  status, the JSON-LD blocks, the hydration payload and the selector
  results.
- `cascade.dfy` (`Cascade`): what both scrapers share. That covers the five
  locals, JavaScript `||`, the JSON-LD image reading, paragraph
  collection, the markup price scan, `slice(0, 5)` and the fetch failure
  message.
- `finn.dfy`, `tise.dfy` (`Finn`, `Tise`): each scraper twice. First as
  layer functions (`LdLayer`, `HydrationLayer`, `MarkupLayer`, `Extract`,
  `Scrape`). Then as the source's step-by-step methods (`ScrapeFinn`,
  `ScrapeTise` and their parts), which have mutable locals and loops and
  are proved to compute the functions.
- `finn_examples.dfy` (`FinnExamples`): worked examples of the price and
  id rules on concrete text.
- `platform.dfy` (`Scrapers`): `detectPlatform` and `scrapeUrl`.
- `scrape_route.dfy` (`ScrapeRoute`): the `POST` handler.
- `receipt.dfy` (`Home`): `handleDataFetched`, which turns a listing into a
  receipt draft.
- `export_names.dfy` (`ExportButtons`): `generateFilename`, the three
  download names, the platform label and `formatDate` for an empty date.

Effects are parameters. The fetch outcome is a `Response` value. The clock
is its ISO text `nowIso`. The `URL` constructor's verdict is a predicate
`parses`, and the locale date formatter is a function `format`.

The price is modelled as `PriceValue` (`Num(n)`, `NaN` or `Text(s)`).
`src/lib/types.ts:4` types `price` as `number`, but the scrapers can store
a negative number, `NaN` or a string there, and the model follows the code:

- Finn's JSON-LD path runs `parseInt` on a string price, so `"-5"` gives -5
  and `"kr 100"` gives `NaN`.
- Tise's JSON-LD path, and both hydration paths (Finn's included), store
  the JSON value as found, so a string stays a string.

Only the markup digit scan is proved to give a non-negative number
(`Finn.MarkupPriceIsScan`, `Tise.MarkupPriceIsScan`).

## Model

| member | source | states |
|---|---|---|
| Types.PlatformName | src/lib/types.ts:8 | The three platform strings; `"finn"` and `"tise"` name exactly Finn and Tise, and no name is empty |
| JsText.IsSpace | src/lib/scrapers/finn.ts:109 | JavaScript's `\s`: the WhiteSpace and LineTerminator characters, as `trim` and `replace(/\s/g, "")` see them |
| JsText.Lower | src/lib/scrapers/index.ts:6 | `toLowerCase` on ASCII letters, character by character; `LowerIdempotent` and `LowerOfUpper` state its laws |
| JsText.Upper | src/lib/scrapers/index.ts:6 | `toUpperCase` on ASCII letters, character by character, used to state that case does not matter |
| JsText.Includes | src/lib/scrapers/index.ts:8 | `includes`: the fragment occurs at some position; `FragmentFound` states that any occurrence is found |
| JsText.TrimStart | src/lib/scrapers/finn.ts:109 | `trimStart` drops a prefix made only of white space, and what is left does not start with white space |
| JsText.TrimEnd | src/lib/scrapers/finn.ts:109 | `trimEnd` drops a suffix made only of white space, and what is left does not end with white space |
| JsText.Trim | src/lib/scrapers/finn.ts:109-110 | `trim()` leaves a text no longer than the original with no white space at either end |
| JsText.TrimEmpty | src/lib/scrapers/finn.ts:120-121 | The trimmed text is empty exactly when the text is all white space, so such a paragraph is skipped |
| JsText.TrimIsSlice | src/lib/scrapers/finn.ts:120 | The trimmed text is the slice of the original starting after the leading white space |
| JsText.TrimStartSkips | src/lib/scrapers/finn.ts:120 | Leading white space before a non-space character is dropped entirely |
| JsText.RemoveSpaces | src/lib/scrapers/finn.ts:163 | `replace(/\s/g, "")`; its contents are stated by `RemoveSpacesKeeps`, `RemoveSpacesAppend` and `RemoveSpacesOne` |
| JsText.RemoveSpacesKeeps | src/lib/scrapers/finn.ts:163 | `replace(/\s/g, "")` keeps exactly the characters that are not white space |
| JsText.RemoveSpacesAppend | src/lib/scrapers/finn.ts:163 | `replace(/\s/g, "")` of a concatenation is the concatenation of the parts, so order is kept |
| JsText.RemoveSpacesCons | src/lib/scrapers/finn.ts:163 | Removing white space works character by character from the front |
| JsText.RemoveSpacesOne | src/lib/scrapers/finn.ts:163 | One character is dropped exactly when it is white space, and otherwise kept |
| JsText.FirstDigitRun | src/lib/scrapers/finn.ts:163 | `match(/(\d+)/)` fails exactly when there is no digit; a match is a non-empty run of digits |
| JsText.ParseInt | src/lib/scrapers/finn.ts:43 | `parseInt(s, 10)` is a number exactly when a digit follows the leading white space and optional sign |
| JsText.ParseIntOfDigits | src/lib/scrapers/finn.ts:165 | A digit run, with or without a minus sign, parses to its decimal value |
| JsText.ParseIntOfDecimal | src/lib/scrapers/finn.ts:13 | `parseInt` reads back the decimal text of any status code |
| JsText.LowerIdempotent | src/lib/scrapers/index.ts:6 | Lower-casing twice is lower-casing once |
| JsText.LowerOfUpper | src/lib/scrapers/index.ts:6 | Upper-casing first does not change the lower-cased text |
| JsText.Join | src/lib/scrapers/finn.ts:126 | `join` starts with the first part and ends with the last; `JoinAppend` and `JoinOne` give the whole text |
| JsText.JoinOne | src/lib/scrapers/finn.ts:126 | One part joins to itself, with no separator |
| JsText.JoinSnoc | src/lib/scrapers/finn.ts:126 | One more part adds the separator and then that part at the end |
| JsText.JoinAppend | src/lib/scrapers/finn.ts:126 | The parts stay in order with the separator between any two neighbours: two joined lists meet at one separator |
| JsText.BeforeFirst | src/app/page.tsx:67 | `split(c)[0]` is the longest prefix without `c`, and `c` follows it when it is shorter than the text |
| JsText.RemoveChar | src/components/export-buttons.tsx:51 | `replace(/-/g, "")` keeps exactly the other characters, and changes nothing when there is no dash |
| JsText.RemoveCharAppend | src/components/export-buttons.tsx:51 | `replace(/-/g, "")` of a concatenation is the concatenation of the parts, so order is kept |
| JsText.RemoveCharCons | src/components/export-buttons.tsx:51 | Removing the dash works character by character from the front |
| JsText.RemoveCharOne | src/components/export-buttons.tsx:51 | One character is dropped exactly when it is the dash, and otherwise kept |
| Cascade.FirstNonEmpty | src/lib/scrapers/finn.ts:75 | `a \|\| b` on strings: `a` unless it is empty, then `b`; empty only when both are |
| Cascade.Or | src/lib/scrapers/tise.ts:38 | `v \|\| fallback` on a JSON value keeps a truthy number or string as it is and falls back otherwise |
| Cascade.OrZero | src/lib/scrapers/finn.ts:86 | `v \|\| 0`: truthy exactly when `v` is, and `0` otherwise |
| Cascade.LdEntryUrl | src/lib/scrapers/finn.ts:51-52 | `typeof img === "string" ? img : img.url \|\| ""`: a string entry is itself, an object entry its `url` |
| Cascade.LdImages | src/lib/scrapers/finn.ts:48-57 | An array without `null` maps entry by entry to the same number of URLs; a non-empty string becomes a one-element list; an array with `null`, an empty string or anything else assigns nothing |
| Cascade.TrimmedPart | src/lib/scrapers/finn.ts:120-123 | One paragraph pushes at most one text, never an empty one; `NonEmptyTrimmedOne` says it is the trimmed paragraph |
| Cascade.NonEmptyTrimmed | src/lib/scrapers/finn.ts:118-124 | The paragraph loop collects no more texts than there are paragraphs, none of them empty |
| Cascade.NonEmptyTrimmedNoEmpty | src/lib/scrapers/finn.ts:121-123 | No collected paragraph text is empty |
| Cascade.NonEmptyTrimmedSnoc | src/lib/scrapers/finn.ts:119-124 | One more paragraph appends its trimmed text when that is non-empty, and nothing otherwise |
| Cascade.NonEmptyTrimmedTake | src/lib/scrapers/finn.ts:119-124 | After one more step of the `.each` loop, what was collected is that of the texts so far |
| Cascade.NonEmptyTrimmedAppend | src/lib/scrapers/finn.ts:119-124 | Paragraphs are collected in document order: collecting a concatenation concatenates the collections |
| Cascade.NonEmptyTrimmedOne | src/lib/scrapers/finn.ts:120-123 | A single paragraph gives its trimmed text if that is non-empty, and nothing otherwise |
| Cascade.NonEmptyTrimmedIsEmpty | src/lib/scrapers/finn.ts:125 | No paragraph is collected exactly when every paragraph trims to nothing |
| Cascade.JoinedParagraphsNonEmpty | src/lib/scrapers/finn.ts:125-127 | Collected paragraphs joined by a blank line give a non-empty description |
| Cascade.DigitScan | src/lib/scrapers/finn.ts:163-166 | `parseInt` of the first digit run once white space is removed, or nothing; stated by `DigitScanNone` and `DigitScanIsParseInt` |
| Cascade.DigitScanNone | src/lib/scrapers/finn.ts:163-164 | The price scan finds nothing exactly when the price text holds no digit |
| Cascade.DigitScanIsParseInt | src/lib/scrapers/finn.ts:165 | `parseInt` of the matched run gives the scanned value |
| Cascade.FirstFive | src/lib/scrapers/finn.ts:194 | `slice(0, 5)` keeps the first five images in order, or all of them when fewer |
| Cascade.Assemble | src/lib/scrapers/finn.ts:190-199 | The returned record has at most five images, a prefix of those found, the found title, description, price and seller, the given id, platform and URL |
| Cascade.FetchFailureMessage | src/lib/scrapers/finn.ts:12-14 | The message thrown for a non-OK response; `FetchFailureCarriesStatus` states its form |
| Cascade.FetchFailureCarriesStatus | src/lib/scrapers/finn.ts:12-14 | The fetch failure message is the fixed prefix followed by the status, which can be read back |
| Finn.LdPrice | src/lib/scrapers/finn.ts:40-44 | A string price goes through `parseInt` (`NaN` exactly when it does not parse); a non-zero number is kept; anything else gives 0 |
| Finn.LdStep | src/lib/scrapers/finn.ts:35-57 | A non-Product block changes nothing; a Product block writes its name, coerced offer price and images into the fields still falsy, and never the description or seller |
| Finn.LdLayer | src/lib/scrapers/finn.ts:26-62 | The JSON-LD loop never touches description or seller and never overwrites a truthy field |
| Finn.FirstProductPrice | src/lib/scrapers/finn.ts:39-45 | The first coerced offer price that counts is truthy |
| Finn.FirstProductSnoc | src/lib/scrapers/finn.ts:27 | Adding a block at the end changes the first-writer reference values only when nothing was found before it |
| Finn.LdLayerFirstWriterWins | src/lib/scrapers/finn.ts:35-57 | Among Product blocks, the first non-empty name, the first non-empty image list and the first truthy price win |
| Finn.LdLayerSkipsNonProduct | src/lib/scrapers/finn.ts:35 | A block that is malformed or not of `@type` `"Product"` can be removed from anywhere without effect |
| Finn.LdLayerNoProduct | src/lib/scrapers/finn.ts:59-61 | Without a Product block the JSON-LD layer changes nothing |
| Finn.BrAt | src/lib/scrapers/finn.ts:80 | A `<br>` match starts with `<` and ends with `>` |
| Finn.ReplaceBrAt | src/lib/scrapers/finn.ts:80 | `<br>`, `<BR/>` or `<br  />` (any case, any white space, optional slash) becomes one newline |
| Finn.ReplaceBrPlain | src/lib/scrapers/finn.ts:80 | A text without `<` is left unchanged by the `<br>` replacement |
| Finn.CloseIndex | src/lib/scrapers/finn.ts:81 | The first `>` of the text, or its end |
| Finn.StripTags | src/lib/scrapers/finn.ts:81 | Removing tags never lengthens the text |
| Finn.StripTagsSpec | src/lib/scrapers/finn.ts:81 | After `replace(/<[^>]*>/g, "")` no complete tag is left and no new character appears |
| Finn.StripTagsRemovesTag | src/lib/scrapers/finn.ts:81 | A tag after tag-free text is removed whole, the text before it kept as it is |
| Finn.StripTagsPlain | src/lib/scrapers/finn.ts:81 | A text without `<` is left unchanged by tag stripping |
| Finn.CleanDescription | src/lib/scrapers/finn.ts:79-82 | The cleaned description is no longer than the stripped text |
| Finn.TagFreeSlice | src/lib/scrapers/finn.ts:82 | Trimming a tag-free text keeps it tag-free |
| Finn.CleanDescriptionSpec | src/lib/scrapers/finn.ts:77-83 | The hydration description holds no tag and no white space at either end |
| Finn.CleanDescriptionPlain | src/lib/scrapers/finn.ts:79-82 | A hydration description without `<` is only trimmed |
| Finn.AdData | src/lib/scrapers/finn.ts:70-72 | `props.pageProps.ad.data`, else `props.pageProps.initialState.ad.data` |
| Finn.HydrationEntryUrl | src/lib/scrapers/finn.ts:94 | `img.url \|\| img.path`: the entry's `url`, else its `path` |
| Finn.HydrationImages | src/lib/scrapers/finn.ts:89-96 | `image_urls` when it is an array; else `images` mapped entry by entry through `url \|\| path`, a throw when it holds `null`; nothing when neither is an array |
| Finn.AdTitle | src/lib/scrapers/finn.ts:75 | Only the title changes, and only while it is empty; then it becomes `heading`, or `title` when the heading is empty |
| Finn.AdDescription | src/lib/scrapers/finn.ts:77-83 | Only the description changes, only while it is empty and the raw one is not; then it is the cleaned raw description |
| Finn.AdPrice | src/lib/scrapers/finn.ts:85-87 | Only the price changes, and only while it is falsy; then it becomes `price.total`, else `main_price.amount`, else 0 |
| Finn.AdImagesAndSeller | src/lib/scrapers/finn.ts:89-98 | Only images and seller change; empty images take the assigned list; an empty seller becomes `user.name \|\| seller.name` unless the image mapping throws first, which changes nothing |
| Finn.FillFromAd | src/lib/scrapers/finn.ts:74-99 | No truthy field is overwritten; an empty title, description, price, image list and seller get the hydration values above, and a throw in the image mapping leaves images and seller alone |
| Finn.HydrationLayer | src/lib/scrapers/finn.ts:65-104 | The block runs only while the title or description is empty and ad data exists, and never overwrites a truthy field |
| Finn.MarkupTitle | src/lib/scrapers/finn.ts:107-112 | Only the title changes, and only while it is empty; then it becomes the trimmed `h1`, else the trimmed ad-title element |
| Finn.AboutAd | src/lib/scrapers/finn.ts:116-128 | Only the description changes: non-empty "Om annonsen" paragraphs, joined by a blank line, replace it; otherwise nothing changes |
| Finn.DescriptionFallback | src/lib/scrapers/finn.ts:131-139 | Only the description changes, and only while it is empty; then it becomes the trimmed description element |
| Finn.ItemDescription | src/lib/scrapers/finn.ts:142-156 | Only the description changes, only while it is empty and the item paragraphs are not; then it is those paragraphs joined by a blank line |
| Finn.MarkupPrice | src/lib/scrapers/finn.ts:158-167 | Only the price changes, only while falsy, and then to a non-negative number |
| Finn.ImgUrl | src/lib/scrapers/finn.ts:172 | `src \|\| data-src`; used by `CdnImagesOne` |
| Finn.CdnPart | src/lib/scrapers/finn.ts:172-174 | One `<img>` pushes at most its own URL |
| Finn.CdnImages | src/lib/scrapers/finn.ts:171-176 | The `<img>` loop pushes at most one URL per image |
| Finn.CdnImagesSpec | src/lib/scrapers/finn.ts:172-173 | Exactly the non-empty `src \|\| data-src` values containing `images.finncdn.no` are collected |
| Finn.CdnImagesSnoc | src/lib/scrapers/finn.ts:171-176 | One more `<img>` appends its URL when it is a Finn CDN URL, and nothing otherwise |
| Finn.CdnImagesAppend | src/lib/scrapers/finn.ts:171-176 | URLs are collected in document order: collecting a concatenation concatenates the collections |
| Finn.CdnImagesOne | src/lib/scrapers/finn.ts:172-174 | A single `<img>` contributes `src \|\| data-src` exactly when it is non-empty and contains `images.finncdn.no` |
| Finn.MarkupImages | src/lib/scrapers/finn.ts:170-177 | Only the images change, and only while none were found; then they are the Finn CDN URLs of the `<img>` elements |
| Finn.MarkupSeller | src/lib/scrapers/finn.ts:179-184 | Only the seller changes, and only while it is empty; then it becomes the trimmed seller name, else the trimmed first `.u-strong` |
| Finn.MarkupLayer | src/lib/scrapers/finn.ts:106-184 | The markup fallbacks in source order; `MarkupLayerKeeps` states what they keep |
| Finn.Extract | src/lib/scrapers/finn.ts:19-184 | JSON-LD, then hydration, then markup, from the blank locals; the `Structured*Win`, `AboutAdOverrides` and `HydrationDescriptionKept` lemmas state which source decides each field |
| Finn.IdAt | src/lib/scrapers/finn.ts:187 | A capture of the id pattern at a position is a non-empty digit run starting with a digit of the URL at or after that position |
| Finn.IdAtCapture | src/lib/scrapers/finn.ts:187-188 | A capture is the whole digit run after `finnkode=`, after `item/`, or after a `/` and followed by `?` or the end |
| Finn.MatchStart | src/lib/scrapers/finn.ts:187 | The leftmost position where the id pattern matches, none before it |
| Finn.AdId | src/lib/scrapers/finn.ts:187-188 | The Finn id is all digits |
| Finn.AdIdSpec | src/lib/scrapers/finn.ts:187-188 | The id is the capture of the leftmost match, empty exactly when no position matches |
| Finn.AdIdWithoutDigits | src/lib/scrapers/finn.ts:188 | A URL without digits has the empty id |
| Finn.Scrape | src/lib/scrapers/finn.ts:4-200 | A non-OK status fails with the status message; otherwise the record has platform Finn, the URL, at most five images and a digit id |
| Finn.ReadLdBlocks | src/lib/scrapers/finn.ts:19-62 | The loop over the JSON-LD blocks computes `LdLayer` from the initial locals |
| Finn.PushTrimmed | src/lib/scrapers/finn.ts:120-123 | The `.each` callback adds to the list exactly what one paragraph contributes: its trimmed text, when that is non-empty |
| Finn.CollectParagraphs | src/lib/scrapers/finn.ts:118-124 | The paragraph loop computes `NonEmptyTrimmed` |
| Finn.CollectCdnImages | src/lib/scrapers/finn.ts:171-176 | The `<img>` loop computes `CdnImages` |
| Finn.HydrateFromNextData | src/lib/scrapers/finn.ts:65-104 | The hydration block on the five locals computes `HydrationLayer` |
| Finn.FillFromMarkup | src/lib/scrapers/finn.ts:107-184 | The markup fallbacks on the five locals compute `MarkupLayer` |
| Finn.ScrapeFinn | src/lib/scrapers/finn.ts:4-200 | The step-by-step scraper returns exactly `Scrape` |
| Finn.HydrationAlwaysConsidered | src/lib/scrapers/finn.ts:65 | JSON-LD never sets the description, so the hydration block runs whenever there is ad data |
| Finn.MarkupLayerKeeps | src/lib/scrapers/finn.ts:106-184 | The markup keeps a found title, price, images and seller, and keeps a found description unless "Om annonsen" has paragraphs |
| Finn.StructuredTitleWins | src/lib/scrapers/finn.ts:36 | A JSON-LD Product name is the final title |
| Finn.StructuredImagesWin | src/lib/scrapers/finn.ts:48-57 | JSON-LD Product images are the final images |
| Finn.StructuredPriceWins | src/lib/scrapers/finn.ts:39-45 | A truthy JSON-LD price is the final price |
| Finn.AboutAdOverrides | src/lib/scrapers/finn.ts:116-128 | Non-empty "Om annonsen" paragraphs, joined by blank lines, replace any earlier description |
| Finn.HydrationDescriptionKept | src/lib/scrapers/finn.ts:77-83 | Without "Om annonsen" paragraphs, a non-empty cleaned hydration description is final |
| Finn.MarkupPriceIsScan | src/lib/scrapers/finn.ts:158-167 | A price from the markup is the non-negative value of the first digit run |
| Finn.ImagesFallback | src/lib/scrapers/finn.ts:170-177 | The `<img>` fallback runs exactly when no images were found, and keeps only Finn CDN URLs |
| Finn.MalformedBlockIgnored | src/lib/scrapers/finn.ts:59-61 | A malformed JSON-LD block inserted anywhere changes nothing |
| FinnExamples.LdPriceNegative | src/lib/scrapers/finn.ts:42-43 | A JSON-LD price `"-5"` is stored as -5 |
| FinnExamples.LdPriceText | src/lib/scrapers/finn.ts:42-43 | A JSON-LD price `"kr 100"` becomes `NaN`, which is falsy |
| FinnExamples.RemoveSpacesExample | src/lib/scrapers/finn.ts:163 | `"kr 1 500,-"` without white space is `"kr1500,-"` |
| FinnExamples.DigitRunExample | src/lib/scrapers/finn.ts:163 | The first digit run of `"kr1500,-"` is `"1500"` |
| FinnExamples.DigitScanExample | src/lib/scrapers/finn.ts:158-167 | The price text `"kr 1 500,-"` scans to 1500 |
| FinnExamples.AdIdItemExample | src/lib/scrapers/finn.ts:187-188 | `/item/42?x` has the id `"42"` |
| Tise.TiseData | src/lib/scrapers/tise.ts:31-33 | `props.pageProps.tise`, else `props.pageProps.initialState.tise` |
| Tise.EntryUrl | src/lib/scrapers/tise.ts:42 | `img.url \|\| img`: a string entry is itself, an object entry its `url` |
| Tise.HydrationImages | src/lib/scrapers/tise.ts:40-43 | Nothing is assigned exactly when `images` is not an array; a throw exactly when it holds `null`; otherwise each entry maps to its URL, one for one |
| Tise.FromItem | src/lib/scrapers/tise.ts:35-46 | Title, description and price are assigned outright; images and seller unless an image entry throws |
| Tise.HydrationLayer | src/lib/scrapers/tise.ts:26-50 | A missing payload or listing changes nothing; otherwise the listing's values are assigned; `HydrationWins` states that they are final |
| Tise.FromLd | src/lib/scrapers/tise.ts:56-75 | Never sets the seller and never overwrites a found field; an empty title, description, falsy price and empty image list take the record's name, description, `offers.price \|\| 0` and images |
| Tise.LdLayer | src/lib/scrapers/tise.ts:53-80 | Only the first block, only while title or description is empty; `LdLayerKeeps` and `OnlyFirstBlockRead` state it |
| Tise.MarkupTitle | src/lib/scrapers/tise.ts:83-88 | Only the title changes, and only while it is empty; then it becomes the trimmed `h1`, else the trimmed title-class element |
| Tise.MarkupDescription | src/lib/scrapers/tise.ts:90-97 | Only the description changes, and only while it is empty; then it becomes the trimmed description element |
| Tise.MarkupPrice | src/lib/scrapers/tise.ts:99-105 | Only the price changes, only while falsy, and then to a non-negative number |
| Tise.Kept | src/lib/scrapers/tise.ts:110 | A `src` is kept when it is non-empty and contains `tise` or `cdn` |
| Tise.KeptImages | src/lib/scrapers/tise.ts:108-113 | The `<img>` loop pushes at most one URL per image |
| Tise.KeptImagesSpec | src/lib/scrapers/tise.ts:109-111 | Exactly the non-empty `src` values mentioning `tise` or `cdn` are collected |
| Tise.KeptImagesSnoc | src/lib/scrapers/tise.ts:108-113 | One more `<img>` appends its `src` when it is kept, and nothing otherwise |
| Tise.KeptImagesAppend | src/lib/scrapers/tise.ts:108-113 | URLs are collected in document order: collecting a concatenation concatenates the collections |
| Tise.KeptImagesOne | src/lib/scrapers/tise.ts:109-111 | A single `<img>` contributes its `src` exactly when it is kept |
| Tise.MarkupImages | src/lib/scrapers/tise.ts:107-114 | Only the images change, and only while none were found; then they are the kept `src` values of the `<img>` elements |
| Tise.MarkupSeller | src/lib/scrapers/tise.ts:116-121 | Only the seller changes, and only while it is empty; then it becomes the trimmed seller-class element, else the first trimmed user-class element |
| Tise.MarkupLayer | src/lib/scrapers/tise.ts:82-121 | The markup fallbacks in source order; `MarkupLayerKeeps` states that they keep every found field |
| Tise.Extract | src/lib/scrapers/tise.ts:19-121 | Hydration, then the first JSON-LD block, then markup, from the blank locals; `HydrationWins`, `LdSkippedWhenHydrated` and `MarkupNeverOverridesDescription` state which source decides |
| Tise.IdRun | src/lib/scrapers/tise.ts:124 | `[a-zA-Z0-9-]+` takes the longest run of id characters |
| Tise.IdAt | src/lib/scrapers/tise.ts:124 | A capture at a position is a non-empty run of id characters right after a `/`, followed by `?` or the end of the URL |
| Tise.MatchStart | src/lib/scrapers/tise.ts:124 | The leftmost position where the id pattern matches, none before it |
| Tise.AdId | src/lib/scrapers/tise.ts:124-125 | The Tise id consists of letters, digits and dashes |
| Tise.AdIdSpec | src/lib/scrapers/tise.ts:124-125 | The id is the capture of the leftmost match, empty exactly when no position matches |
| Tise.Scrape | src/lib/scrapers/tise.ts:12-136 | A non-OK status fails with the status message; otherwise the record has platform Tise, the URL and at most five images |
| Tise.HydrateFromNextData | src/lib/scrapers/tise.ts:26-50 | The hydration `try` on the five locals computes `HydrationLayer` |
| Tise.ReadFirstLdBlock | src/lib/scrapers/tise.ts:53-80 | The JSON-LD block on the five locals computes `LdLayer` |
| Tise.CollectImages | src/lib/scrapers/tise.ts:107-114 | The `<img>` loop computes `KeptImages` |
| Tise.FillFromMarkup | src/lib/scrapers/tise.ts:83-121 | The markup fallbacks on the five locals compute `MarkupLayer` |
| Tise.ScrapeTise | src/lib/scrapers/tise.ts:12-136 | The step-by-step scraper returns exactly `Scrape` |
| Tise.MarkupLayerKeeps | src/lib/scrapers/tise.ts:82-121 | The markup never overwrites a field already found |
| Tise.LdLayerKeeps | src/lib/scrapers/tise.ts:53-80 | The JSON-LD layer never overwrites a field already found and never sets the seller |
| Tise.OnlyFirstBlockRead | src/lib/scrapers/tise.ts:54 | Blocks after the first change nothing |
| Tise.MalformedFirstBlockIgnored | src/lib/scrapers/tise.ts:76-78 | A malformed first block leaves the fields as they were |
| Tise.HydrationWins | src/lib/scrapers/tise.ts:36-37 | A non-empty hydration title or description is final |
| Tise.LdSkippedWhenHydrated | src/lib/scrapers/tise.ts:53 | With title and description from hydration, the JSON-LD blocks are not consulted |
| Tise.MarkupNeverOverridesDescription | src/lib/scrapers/tise.ts:90 | A description found before the markup is final |
| Tise.MarkupPriceIsScan | src/lib/scrapers/tise.ts:99-105 | A price from the markup is the non-negative value of the first digit run |
| Tise.ImagesFallback | src/lib/scrapers/tise.ts:107-114 | The `<img>` fallback runs exactly when no images were found, and keeps only `tise`/`cdn` URLs |
| Tise.LdPriceNotCoerced | src/lib/scrapers/tise.ts:62-64 | A JSON-LD string price is stored as the string |
| Scrapers.DetectPlatform | src/lib/scrapers/index.ts:5-17 | Finn exactly when the lower-cased URL contains `finn.no`; Tise exactly when it does not but contains `tise.com` or `tise.no` |
| Scrapers.UnknownIffNoFragment | src/lib/scrapers/index.ts:16 | Unknown exactly when none of the three fragments occurs |
| Scrapers.DetectIgnoresCase | src/lib/scrapers/index.ts:6 | Lower- or upper-casing the URL first gives the same platform |
| Scrapers.FragmentFound | src/lib/scrapers/index.ts:8 | A fragment in any letter case is found anywhere in the URL |
| Scrapers.FinnFragmentWins | src/lib/scrapers/index.ts:8-10 | `finn.no` in any case, anywhere, makes a Finn URL, even next to a Tise fragment |
| Scrapers.TiseFragmentFound | src/lib/scrapers/index.ts:12-14 | Without `finn.no`, `tise.com` or `tise.no` in any case makes a Tise URL |
| Scrapers.FetchFailureIsNotUnknown | src/lib/scrapers/index.ts:28 | No fetch failure message equals the unknown-platform message |
| Scrapers.ScrapeUrl | src/lib/scrapers/index.ts:19-29 | Fails with the unknown-platform message exactly for unknown URLs; a record names the detected platform and the URL |
| Scrapers.ScrapeUrlDispatches | src/lib/scrapers/index.ts:22-26 | Finn URLs go to the Finn scraper, Tise URLs to the Tise scraper |
| Scrapers.UnknownNeedsNoFetch | src/lib/scrapers/index.ts:27-28 | For an unknown URL the outcome does not depend on any fetch |
| ScrapeRoute.Accepted | src/app/api/scrape/route.ts:11-38 | A request passes all three checks: a non-empty string, accepted by `URL`, a known platform |
| ScrapeRoute.CaughtMessage | src/app/api/scrape/route.ts:46-47 | An `Error` contributes its own message |
| PageInput.IsOk | src/lib/scrapers/finn.ts:12 | `response.ok`: a status from 200 to 299 |
| ScrapeRoute.Post | src/app/api/scrape/route.ts:5-54 | Success exactly with status 200 and data; failures carry an error with 400 or 500; 400 exactly when a readable request fails a check |
| ScrapeRoute.FirstFailingCheckDecides | src/app/api/scrape/route.ts:11-38 | Missing URL, then URL syntax, then platform: the first failing check decides the message |
| ScrapeRoute.NoScrapeUnlessAccepted | src/app/api/scrape/route.ts:40 | A rejected or unreadable request never reaches the scraper |
| ScrapeRoute.AcceptedRequestScrapes | src/app/api/scrape/route.ts:40-53 | An accepted request returns the scraped record with 200, or the caught message with 500 |
| ScrapeRoute.ScrapeWith | src/app/api/scrape/route.ts:40 | `scrapeUrl` as awaited succeeds exactly when it returns a record |
| ScrapeRoute.EndToEnd | src/app/api/scrape/route.ts:40-53 | For an accepted URL: 200 exactly when the fetch was OK, with the detected platform and the URL; otherwise 500 with the fetch failure message |
| ScrapeRoute.UnknownPlatformSameMessage | src/app/api/scrape/route.ts:29-38 | The handler and `scrapeUrl` reject an unknown platform with the same message |
| Home.Today | src/app/page.tsx:67 | The purchase date is the clock's ISO text up to, and not including, the first `T` |
| Home.TodayOfIsoTimestamp | src/app/page.tsx:67 | An ISO timestamp yields its ten-character date |
| Home.FromScraped | src/app/page.tsx:61-81 | First image or `""`, today's date, the platform's name, and every buyer and trade field blank |
| Home.PlatformOf | src/app/page.tsx:72 | Reads `"finn"` and `"tise"` back as their platforms |
| Home.ReceiptKeepsListing | src/app/page.tsx:62-73 | Title, description, price, seller, id, URL, platform and first image can be read back from the receipt |
| Home.ClockOnlySetsDate | src/app/page.tsx:67 | The clock affects only the purchase date |
| ExportButtons.IsNameChar | src/components/export-buttons.tsx:54 | The characters a file name keeps: ASCII letters, digits and `æøåÆØÅ` |
| ExportButtons.Sanitize | src/components/export-buttons.tsx:54 | `replace(/[^a-zA-Z0-9æøåÆØÅ]/g, "_")`; stated by `SanitizeSpec` |
| ExportButtons.SanitizeSpec | src/components/export-buttons.tsx:53-54 | Sanitising keeps the length and each allowed character, and puts `_` everywhere else |
| ExportButtons.SanitizeIdempotent | src/components/export-buttons.tsx:54 | A sanitised name is safe and sanitising it again changes nothing |
| ExportButtons.ProductPart | src/components/export-buttons.tsx:53-55 | The product part has at most 20 safe characters, one per character of the name |
| ExportButtons.ProductPartIdempotent | src/components/export-buttons.tsx:53-55 | Taking the product part of a product part changes nothing |
| ExportButtons.DatePart | src/components/export-buttons.tsx:50-52 | The date part has no dash, and otherwise the purchase date's characters |
| ExportButtons.DatePartOfIsoDate | src/components/export-buttons.tsx:50-51 | A `YYYY-MM-DD` purchase date gives `YYYYMMDD` |
| ExportButtons.GenerateFilename | src/components/export-buttons.tsx:49-57 | `kvittering_`, then the date part, then `_`, then the product part, with its exact length |
| ExportButtons.EmptyDateMeansToday | src/components/export-buttons.tsx:50-52 | An empty purchase date names the file as if today's date had been entered |
| ExportButtons.FilenameIsSafe | src/components/export-buttons.tsx:49-57 | With a date of digits and dashes, the whole name is letters, digits, `æøåÆØÅ` and `_` |
| ExportButtons.Extension | src/components/export-buttons.tsx:76 | The three extensions `png`, `pdf` and `txt`; `ExportName` states the download names |
| ExportButtons.ExportName | src/components/export-buttons.tsx:76 | Each download name is the base name followed by `.png`, `.pdf` or `.txt` as the kind says |
| ExportButtons.ExportNamesDistinct | src/components/export-buttons.tsx:122 | The PNG, PDF and text downloads have pairwise distinct names |
| ExportButtons.PlatformLabel | src/components/export-buttons.tsx:164-170 | `finn` shows `Finn.no`, `tise` shows `Tise`, the empty platform a dash, and any other platform as it is |
| ExportButtons.PlatformLabelOfListing | src/components/export-buttons.tsx:164-170 | A receipt from a Finn, Tise or unknown listing shows `Finn.no`, `Tise` or `unknown` |
| ExportButtons.FormatDate | src/components/export-buttons.tsx:31-39 | An empty date is shown as a dash; any other goes to the locale formatter |

## Left out

- The HTTP fetch, its `User-Agent` header and network errors thrown by
  `fetch` are not modelled. A `Response` value (status and parsed page)
  stands for the fetch outcome.
- HTML parsing, CSS selector evaluation and `JSON.parse` are not modelled.
  `Markup` holds the selector results as their text. `LdBlock.Malformed`
  and `Page.nextData == None` stand for content that does not parse.
- cheerio's `find("br").replaceWith("\n")` changes the document in place.
  It is modelled only as its effect on the description text, which the
  `Markup` fields hold with `<br>` already turned into a newline.
- RemoveSpacesKeeps, RemoveChar, DatePart, CdnImagesSpec, KeptImagesSpec:
  each states which characters or URLs are kept, not their order or
  count. Order and count are stated by `RemoveSpacesAppend` and
  `RemoveSpacesOne`, `RemoveCharAppend` and `RemoveCharOne`,
  `DatePartOfIsoDate`, `CdnImagesAppend` and `CdnImagesOne`, and
  `KeptImagesAppend` and `KeptImagesOne`.
- NonEmptyTrimmed: its own contract bounds the length only. That the
  result is the non-empty trimmed paragraphs in order is stated by
  `NonEmptyTrimmedAppend`, `NonEmptyTrimmedOne` and `NonEmptyTrimmedNoEmpty`.
- StripTagsSpec, CleanDescriptionSpec: state that no tag is left, no new
  character appears and the ends are trimmed. That text outside tags
  survives and `<br>` becomes a newline is stated by `StripTagsRemovesTag`,
  `StripTagsPlain`, `ReplaceBrAt`, `ReplaceBrPlain` and
  `CleanDescriptionPlain`.
- Join: its own contract states only the first and the last part. The
  separator between neighbours and the middle parts are stated by
  `JoinAppend`, `JoinSnoc` and `JoinOne`.
- IdAt (Finn): its own contract places only the capture's first digit in
  the URL. The whole capture and its surroundings are stated by
  `IdAtCapture`.
- `console.error` logging in the `catch` blocks is left out.
- Prices are integers. Fractional JSON numbers are not modelled, and neither
  is the loss of precision of `parseInt` on very long digit runs.
- `Finn.AdImagesAndSeller`, `Tise.FromItem`: a hydration image entry with
  neither `url` nor `path` (Finn), or an object without `url` (Tise), puts
  `undefined` or the object itself into the list. The model stores `""`
  instead.
- `JsText.Lower` lower-cases ASCII letters only. `toLowerCase` also folds
  other letters, which cannot turn a URL into one containing the ASCII
  platform fragments.
- Strings are sequences of Unicode scalar values, not UTF-16 code units.
  `ExportButtons.Sanitize` therefore writes one `_` for a character outside
  the Basic Multilingual Plane where the source writes two, and
  `substring(0, 20)` counts in the same units.
- `ScrapeRoute.CaughtMessage`: the body of a thrown `Error` is reduced to
  its message. A throw of a non-`Error` value is the `NonError` case, whose
  contents are not modelled.
- `ScrapeRoute.Post`: the `URL` constructor's verdict is the parameter
  `parses`. The model assumes nothing about it beyond the source's use of
  it, so the empty URL is still rejected first by the presence check.
- `ExportButtons.FormatDate`: the Norwegian long date is the parameter
  `format`, so only the empty-date branch is stated precisely. The
  `formatPrice` helper, the PNG and PDF rendering and the text export body
  are not modelled, except for the platform label.
- The AI-assisted route, the receipt form, rendering, `sessionStorage` and
  router navigation are not part of the core and are not modelled.
