/** The file names and labels of the receipt exports
    (src/components/export-buttons.tsx). */
module ExportButtons {
  import opened JsText
  import opened Types
  import Home

  /** `[a-zA-Z0-9æøåÆØÅ]`, the characters a file name keeps. */
  predicate IsNameChar(c: char) {
    'a' <= c <= 'z' || 'A' <= c <= 'Z' || '0' <= c <= '9' ||
    c == '\U{00E6}' || c == '\U{00F8}' || c == '\U{00E5}' ||
    c == '\U{00C6}' || c == '\U{00D8}' || c == '\U{00C5}'
  }

  /** `s.replace(/[^a-zA-Z0-9æøåÆØÅ]/g, "_")`. */
  function Sanitize(s: string): string {
    if s == [] then []
    else [if IsNameChar(s[0]) then s[0] else '_'] + Sanitize(s[1..])
  }

  /** Sanitising keeps the length, keeps each allowed character in place and
      puts `_` everywhere else. */
  lemma {:induction false} SanitizeSpec(s: string)
    ensures |Sanitize(s)| == |s|
    ensures forall i :: 0 <= i < |s| ==> Sanitize(s)[i] == if IsNameChar(s[i]) then s[i] else '_'
  {
    if s != [] {
      SanitizeSpec(s[1..]);
    }
  }

  /** A sanitised name holds nothing but allowed characters and `_`. */
  predicate IsSafe(s: string) {
    forall i :: 0 <= i < |s| ==> IsNameChar(s[i]) || s[i] == '_'
  }

  /** Sanitising twice is sanitising once. */
  lemma SanitizeIdempotent(s: string)
    ensures IsSafe(Sanitize(s))
    ensures Sanitize(Sanitize(s)) == Sanitize(s)
  {
    SanitizeSpec(s);
    SanitizeSpec(Sanitize(s));
  }

  /** `.substring(0, 20)` of the sanitised product name. */
  function ProductPart(name: string): (r: string)
    ensures |r| == if |name| < 20 then |name| else 20
    ensures IsSafe(r)
    ensures forall i :: 0 <= i < |r| ==> r[i] == if IsNameChar(name[i]) then name[i] else '_'
  {
    SanitizeSpec(name);
    var s := Sanitize(name);
    if |s| <= 20 then s else s[..20]
  }

  /** The product part of a file name made from a file name's product part is unchanged. */
  lemma ProductPartIdempotent(name: string)
    ensures ProductPart(ProductPart(name)) == ProductPart(name)
  {
    var p := ProductPart(name);
    var q := ProductPart(p);
    assert !IsNameChar('_');
    assert forall i :: 0 <= i < |q| ==> q[i] == p[i];
  }

  /** The date part: the purchase date, or today's date when it is empty, without its dashes. */
  function DatePart(purchaseDate: string, nowIso: string): (r: string)
    ensures '-' !in r
    ensures purchaseDate != "" ==> forall c :: c in r <==> c in purchaseDate && c != '-'
  {
    if purchaseDate != "" then RemoveChar(purchaseDate, '-')
    else RemoveChar(Home.Today(nowIso), '-')
  }

  const FilenamePrefix := "kvittering_"

  /** `generateFilename`: `kvittering_<date>_<product>`. */
  function GenerateFilename(data: ReceiptData, nowIso: string): (r: string)
    ensures |r| == |FilenamePrefix| + |DatePart(data.purchaseDate, nowIso)| + 1 + |ProductPart(data.productName)|
    ensures r[..|FilenamePrefix|] == FilenamePrefix
    ensures r[|FilenamePrefix|..|FilenamePrefix| + |DatePart(data.purchaseDate, nowIso)|] == DatePart(data.purchaseDate, nowIso)
    ensures r[|FilenamePrefix| + |DatePart(data.purchaseDate, nowIso)|] == '_'
    ensures r[|r| - |ProductPart(data.productName)|..] == ProductPart(data.productName)
  {
    var date := DatePart(data.purchaseDate, nowIso);
    var product := ProductPart(data.productName);
    var r := FilenamePrefix + date + "_" + product;
    assert r[..|FilenamePrefix|] == FilenamePrefix;
    assert r[|FilenamePrefix|..|FilenamePrefix| + |date|] == date;
    assert r[|r| - |product|..] == product;
    r
  }

  /** A date written `YYYY-MM-DD` loses exactly its two dashes:
      `2024-03-15` becomes `20240315`. */
  lemma DatePartOfIsoDate(year: string, month: string, day: string, nowIso: string)
    requires '-' !in year && '-' !in month && '-' !in day
    ensures DatePart(year + "-" + month + "-" + day, nowIso) == year + month + day
  {
    var s1 := year + "-";
    var s2 := s1 + month;
    var s3 := s2 + "-";
    var date := s3 + day;
    assert date != "" by { assert |date| >= |s1| > 0; }
    RemoveCharOne('-', '-');
    assert RemoveChar(s1, '-') == year by { RemoveCharAppend(year, "-", '-'); }
    assert RemoveChar(s2, '-') == year + month by { RemoveCharAppend(s1, month, '-'); }
    assert RemoveChar(s3, '-') == year + month by { RemoveCharAppend(s2, "-", '-'); }
    assert RemoveChar(date, '-') == year + month + day by { RemoveCharAppend(s3, day, '-'); }
  }

  /** An empty purchase date names the file after today, as if today's date had been entered. */
  lemma EmptyDateMeansToday(data: ReceiptData, nowIso: string)
    requires data.purchaseDate == ""
    ensures GenerateFilename(data, nowIso) == GenerateFilename(data.(purchaseDate := Home.Today(nowIso)), nowIso)
  {
  }

  /** With a purchase date written in digits and dashes, the whole name is
      safe: letters, digits, `æøåÆØÅ` and `_` only. */
  lemma FilenameIsSafe(data: ReceiptData, nowIso: string)
    requires data.purchaseDate != ""
    requires forall i :: 0 <= i < |data.purchaseDate| ==> IsDigit(data.purchaseDate[i]) || data.purchaseDate[i] == '-'
    ensures IsSafe(GenerateFilename(data, nowIso))
  {
    var date := DatePart(data.purchaseDate, nowIso);
    var product := ProductPart(data.productName);
    forall i | 0 <= i < |date|
      ensures IsNameChar(date[i])
    {
      assert date[i] in data.purchaseDate;
    }
    assert IsSafe(FilenamePrefix);
    SafeAppend(FilenamePrefix, date);
    SafeAppend(FilenamePrefix + date, "_");
    SafeAppend(FilenamePrefix + date + "_", product);
  }

  /** Safe names stay safe when put together. */
  lemma SafeAppend(a: string, b: string)
    requires IsSafe(a) && IsSafe(b)
    ensures IsSafe(a + b)
  {
    forall i | 0 <= i < |a + b|
      ensures IsNameChar((a + b)[i]) || (a + b)[i] == '_'
    {
      if i < |a| {
        assert (a + b)[i] == a[i];
      } else {
        assert (a + b)[i] == b[i - |a|];
      }
    }
  }

  /** The three downloads: the same base name with `.png`, `.pdf` or `.txt`. */
  datatype ExportKind = Png | Pdf | Txt

  function Extension(kind: ExportKind): string {
    match kind
    case Png => "png"
    case Pdf => "pdf"
    case Txt => "txt"
  }

  function ExportName(data: ReceiptData, nowIso: string, kind: ExportKind): (r: string)
    ensures |r| == |GenerateFilename(data, nowIso)| + 4
    ensures r[..|GenerateFilename(data, nowIso)|] == GenerateFilename(data, nowIso)
    ensures r[|GenerateFilename(data, nowIso)|..] == "." + Extension(kind)
    ensures kind == Png ==> r[|r| - 4..] == ".png"
    ensures kind == Pdf ==> r[|r| - 4..] == ".pdf"
    ensures kind == Txt ==> r[|r| - 4..] == ".txt"
  {
    GenerateFilename(data, nowIso) + "." + Extension(kind)
  }

  /** The three exports differ only in their extension, which tells them apart. */
  lemma ExportNamesDistinct(data: ReceiptData, nowIso: string, k1: ExportKind, k2: ExportKind)
    ensures ExportName(data, nowIso, k1) == ExportName(data, nowIso, k2) <==> k1 == k2
  {
    var base := GenerateFilename(data, nowIso);
    if ExportName(data, nowIso, k1) == ExportName(data, nowIso, k2) {
      assert ExportName(data, nowIso, k1)[|base| + 1..] == Extension(k1);
      assert ExportName(data, nowIso, k2)[|base| + 1..] == Extension(k2);
    }
  }

  const Dash := "\U{2014}"

  /** The `Plattform:` line of the text export. */
  function PlatformLabel(platform: string): (shown: string)
    ensures shown != ""
    ensures platform == "finn" ==> shown == "Finn.no"
    ensures platform == "tise" ==> shown == "Tise"
    ensures platform == "" ==> shown == Dash
    ensures platform != "finn" && platform != "tise" && platform != "" ==> shown == platform
  {
    if platform == "finn" then "Finn.no"
    else if platform == "tise" then "Tise"
    else if platform != "" then platform
    else Dash
  }

  /** The label of a receipt made from a scraped listing names its platform. */
  lemma PlatformLabelOfListing(data: ScrapedData, nowIso: string)
    ensures var shown := PlatformLabel(Home.FromScraped(data, nowIso).platform);
      && (data.platform == Finn ==> shown == "Finn.no")
      && (data.platform == Tise ==> shown == "Tise")
      && (data.platform == Unknown ==> shown == "unknown")
  {
  }

  /** `formatDate`: a dash for an empty date, the Norwegian long date otherwise
      (`format` stands for `toLocaleDateString("nb-NO", …)`). */
  function FormatDate(dateString: string, format: string -> string): (r: string)
    ensures dateString == "" ==> r == Dash
    ensures dateString != "" ==> r == format(dateString)
  {
    if dateString == "" then Dash else format(dateString)
  }
}
