/** The export endpoint (src/app/api/export/route.ts): the Wix product CSV,
    the selection of the artworks to export and the response of `POST`. */
module ExportRoute {
  import opened Wrappers
  import opened Strings
  import opened Types
  import opened Errors
  import opened Validation
  import opened Db
  import Image

  // ---------------------------------------------------------------------
  // Quoted CSV fields (RFC 4180, section 2, item 7)

  /** The escaped form of one character. */
  function EscapeChar(c: char): string {
    if c == '"' then "\"\"" else [c]
  }

  /** `s.replace(/"/g, '""')`: every quote doubled, every other character
      kept; the result is never shorter. */
  function EscapeQuotes(s: string): (r: string)
    ensures |r| >= |s|
  {
    if |s| == 0 then "" else EscapeChar(s[0]) + EscapeQuotes(s[1..])
  }

  /** The body of a quoted field: every quote is one of a doubled pair. */
  predicate WellEscaped(s: string)
    decreases |s|
  {
    if |s| == 0 then true
    else if s[0] == '"' then |s| >= 2 && s[1] == '"' && WellEscaped(s[2..])
    else WellEscaped(s[1..])
  }

  /** Escaping leaves no lone quote behind. */
  lemma {:induction false} EscapedIsWellEscaped(s: string)
    ensures WellEscaped(EscapeQuotes(s))
    decreases |s|
  {
    if |s| > 0 {
      var rest := EscapeQuotes(s[1..]);
      EscapedIsWellEscaped(s[1..]);
      if s[0] == '"' {
        assert ("\"\"" + rest)[2..] == rest;
      } else {
        assert ([s[0]] + rest)[1..] == rest;
      }
    }
  }

  /** Reading a quoted field's body: each doubled quote stands for one. */
  function UnescapeQuotes(s: string): string
    decreases |s|
  {
    if |s| == 0 then ""
    else if |s| >= 2 && s[0] == '"' && s[1] == '"' then "\"" + UnescapeQuotes(s[2..])
    else [s[0]] + UnescapeQuotes(s[1..])
  }

  lemma {:induction false} EscapeRoundTrip(s: string)
    ensures UnescapeQuotes(EscapeQuotes(s)) == s
    decreases |s|
  {
    if |s| > 0 {
      var rest := EscapeQuotes(s[1..]);
      EscapeRoundTrip(s[1..]);
      if s[0] == '"' {
        assert ("\"\"" + rest)[2..] == rest;
      } else {
        assert ([s[0]] + rest)[1..] == rest;
      }
      assert s == [s[0]] + s[1..];
    }
  }

  /** Text without quotes is left alone. */
  lemma {:induction false} EscapeNoQuotes(s: string)
    requires '"' !in s
    ensures EscapeQuotes(s) == s
    decreases |s|
  {
    if |s| > 0 {
      assert s[0] in s;
      EscapeNoQuotes(s[1..]);
    }
  }

  /** Escaping works character by character: it splits over
      concatenation. */
  lemma {:induction false} EscapeConcat(a: string, b: string)
    ensures EscapeQuotes(a + b) == EscapeQuotes(a) + EscapeQuotes(b)
    decreases |a|
  {
    if |a| == 0 {
      assert a + b == b;
    } else {
      var ab := a + b;
      assert ab[0] == a[0] && ab[1..] == a[1..] + b;
      EscapeConcat(a[1..], b);
    }
  }

  /** A prefix without quotes does not affect well-escapedness. */
  lemma {:induction false} WellEscapedPlainPrefix(a: string, b: string)
    requires '"' !in a
    ensures WellEscaped(a + b) <==> WellEscaped(b)
    decreases |a|
  {
    if |a| == 0 {
      assert a + b == b;
    } else {
      assert a[0] in a;
      assert (a + b)[0] == a[0] && (a + b)[1..] == a[1..] + b;
      WellEscapedPlainPrefix(a[1..], b);
    }
  }

  /** `"${s.replace(/"/g, '""')}"`. */
  function QuotedField(s: string): string {
    "\"" + EscapeQuotes(s) + "\""
  }

  /** How a CSV reader reads a quoted field; `None` when it is malformed. */
  function ParseQuotedField(f: string): Option<string> {
    if |f| >= 2 && f[0] == '"' && f[|f| - 1] == '"' && WellEscaped(f[1..|f| - 1])
    then Some(UnescapeQuotes(f[1..|f| - 1]))
    else None
  }

  /** A quoted field reads back as the text it was made from. */
  lemma QuotedFieldRoundTrip(s: string)
    ensures ParseQuotedField(QuotedField(s)) == Some(s)
  {
    var f := QuotedField(s);
    assert f[1..|f| - 1] == EscapeQuotes(s);
    EscapedIsWellEscaped(s);
    EscapeRoundTrip(s);
  }

  // ---------------------------------------------------------------------
  // The cells of one product row

  const MaxDescriptionLength: nat := 8000

  /** The description is escaped first and cut to 8000 characters after. */
  function DescriptionCell(description: string): (r: string)
    ensures |r| >= 2 && |r| <= MaxDescriptionLength + 2 && r[0] == '"' && r[|r| - 1] == '"'
    ensures var body := r[1..|r| - 1];
      |body| == Min(MaxDescriptionLength, |EscapeQuotes(description)|) &&
      body == EscapeQuotes(description)[..|body|]
  {
    "\"" + Take(EscapeQuotes(description), MaxDescriptionLength) + "\""
  }

  /** A description whose escaped form fits is an ordinary quoted field. */
  lemma DescriptionCellFits(description: string)
    requires |EscapeQuotes(description)| <= MaxDescriptionLength
    ensures DescriptionCell(description) == QuotedField(description)
    ensures ParseQuotedField(DescriptionCell(description)) == Some(description)
  {
    QuotedFieldRoundTrip(description);
  }

  /** Cutting after escaping can separate a doubled quote: 7999 letters and
      a quote escape to 8001 characters, the cut keeps one quote of the
      pair, and the cell no longer reads as a quoted field. */
  lemma DescriptionCellSplitsQuote(letters: string)
    requires letters == seq(7999, _ => 'a')
    ensures ParseQuotedField(DescriptionCell(letters + "\"")) == None
  {
    var d := letters + "\"";
    assert '"' !in letters;
    EscapeNoQuotes(letters);
    EscapeConcat(letters, "\"");
    assert EscapeQuotes("\"") == "\"\"" by {
      assert "\""[1..] == "";
    }
    var e := letters + "\"\"";
    assert EscapeQuotes(d) == e;
    var cut := Take(e, MaxDescriptionLength);
    assert cut == letters + "\"";
    WellEscapedPlainPrefix(letters, "\"");
    assert !WellEscaped("\"");
    var f := DescriptionCell(d);
    assert f[1..|f| - 1] == cut;
  }

  /** `artwork.price || ''`: empty for a missing price and for 0. The
      rendering of a JavaScript number is the parameter `showNumber`. */
  function PriceCell(price: Option<real>, showNumber: real -> string): (r: string)
    ensures price.None? || price.value == 0.0 ==> r == ""
    ensures price.Some? && price.value != 0.0 ==> r == showNumber(price.value)
  {
    if price.None? || price.value == 0.0 then "" else showNumber(price.value)
  }

  /** The first eight characters of the id, upper-cased. */
  function SkuCell(id: string): (r: string)
    ensures |r| == Min(8, |id|)
    ensures forall i :: 0 <= i < |r| ==> r[i] == UpperAscii(id[i])
  {
    ToUpperAscii(Take(id, 8))
  }

  function VisibleCell(status: Status): (r: string)
    ensures r == "true" <==> status == Published
    ensures r == "true" || r == "false"
  {
    if status == Published then "true" else "false"
  }

  /** The first three tags, joined by ", " and quoted without escaping. */
  function CollectionCell(tags: seq<string>): (r: string)
    ensures |r| >= 2 && r[0] == '"' && r[|r| - 1] == '"'
  {
    "\"" + Join(", ", Take(tags, 3)) + "\""
  }

  /** Up to three tags all appear, joined by ", ". */
  lemma CollectionCellFew(tags: seq<string>)
    requires |tags| <= 3
    ensures CollectionCell(tags) == "\"" + Join(", ", tags) + "\""
  {
  }

  /** Only the first three tags appear; the rest never matter. */
  lemma CollectionCellFirstThree(a: string, b: string, c: string, rest: seq<string>)
    ensures CollectionCell([a, b, c] + rest) == "\"" + a + ", " + b + ", " + c + "\""
  {
    var tags := [a, b, c] + rest;
    assert Take(tags, 3) == [a, b, c];
    assert [a, b, c][1..] == [b, c] && [b, c][1..] == [c];
    assert Join(", ", [b, c]) == b + ", " + c;
    assert Join(", ", [a, b, c]) == a + ", " + (b + ", " + c);
  }

  /** Tags are not escaped: a tag holding a quote makes the cell malformed. */
  lemma CollectionCellNotEscaped(tag: string)
    requires tag == "\""
    ensures ParseQuotedField(CollectionCell([tag])) == None
  {
    var f := CollectionCell([tag]);
    assert Join(", ", [tag]) == tag;
    assert f == "\"\"\"";
    assert f[1..|f| - 1] == "\"";
  }

  const CsvHeaders: seq<string> :=
    ["handleId", "name", "description", "price", "sku", "visible", "productImageUrl", "collection"]

  /** One product row, cell by cell in header order. */
  function CsvRow(a: Artwork, showNumber: real -> string): (r: seq<string>)
    ensures |r| == |CsvHeaders|
    ensures r[0] == a.id && r[6] == a.imagePath
    ensures ParseQuotedField(r[1]) == Some(a.title)
    ensures r[2] == DescriptionCell(a.description) && r[3] == PriceCell(a.price, showNumber)
    ensures r[4] == SkuCell(a.id) && r[5] == VisibleCell(a.status)
    ensures r[7] == CollectionCell(a.tags)
  {
    QuotedFieldRoundTrip(a.title);
    [a.id, QuotedField(a.title), DescriptionCell(a.description), PriceCell(a.price, showNumber),
     SkuCell(a.id), VisibleCell(a.status), a.imagePath, CollectionCell(a.tags)]
  }

  function RowLine(a: Artwork, showNumber: real -> string): string {
    Join(",", CsvRow(a, showNumber))
  }

  function RowLines(artworks: seq<Artwork>, showNumber: real -> string): (r: seq<string>)
    ensures |r| == |artworks|
    ensures forall i :: 0 <= i < |artworks| ==> r[i] == RowLine(artworks[i], showNumber)
  {
    seq(|artworks|, i requires 0 <= i < |artworks| => RowLine(artworks[i], showNumber))
  }

  lemma RowLinesAppend(artworks: seq<Artwork>, a: Artwork, showNumber: real -> string)
    ensures RowLines(artworks + [a], showNumber) == RowLines(artworks, showNumber) + [RowLine(a, showNumber)]
  {
    var all := artworks + [a];
    assert forall i :: 0 <= i < |artworks| ==> all[i] == artworks[i];
    assert all[|artworks|] == a;
  }

  /** `generateCSV`: the header line and one line per artwork, in order,
      separated by newlines. */
  function GenerateCSV(artworks: seq<Artwork>, showNumber: real -> string): string {
    Join("\n", [Join(",", CsvHeaders)] + RowLines(artworks, showNumber))
  }

  /** No artworks: just the header line. */
  lemma GenerateCSVEmpty(showNumber: real -> string)
    ensures GenerateCSV([], showNumber) == Join(",", CsvHeaders)
  {
    assert [Join(",", CsvHeaders)] + RowLines([], showNumber) == [Join(",", CsvHeaders)];
  }

  /** One more artwork adds a newline and its row at the end. */
  lemma GenerateCSVAppend(artworks: seq<Artwork>, a: Artwork, showNumber: real -> string)
    ensures GenerateCSV(artworks + [a], showNumber) == GenerateCSV(artworks, showNumber) + "\n" + RowLine(a, showNumber)
  {
    var head := [Join(",", CsvHeaders)];
    var rows := RowLines(artworks, showNumber);
    var line := RowLine(a, showNumber);
    RowLinesAppend(artworks, a, showNumber);
    assert head + (rows + [line]) == (head + rows) + [line];
    JoinAppend("\n", head + rows, line);
  }

  // ---------------------------------------------------------------------
  // The JSON (Wix CMS) and Velo field mappings

  /** The item of the CMS export for one artwork. */
  datatype CmsItem = CmsItem(
    id: string, title: string, description: string, seoTitle: string, seoDescription: string,
    price: Option<real>, tags: seq<string>, colors: seq<string>, mood: string,
    image: string, thumbnail: string, status: Status, createdAt: int)

  function ToCmsItem(a: Artwork): CmsItem {
    CmsItem(a.id, a.title, a.description, a.seoTitle, a.seoDescription, a.price, a.tags,
            a.colors, a.mood, a.imagePath, a.thumbnailPath, a.status, a.createdAt)
  }

  /** The record written into the Velo script for one artwork. */
  datatype VeloItem = VeloItem(id: string, title: string, price: Option<real>, tags: seq<string>)

  function ToVeloItem(a: Artwork): VeloItem {
    VeloItem(a.id, a.title, a.price, a.tags)
  }

  /** `artworks.map(...)` for the CMS export: one item per artwork, in order. */
  function CmsItems(artworks: seq<Artwork>): (r: seq<CmsItem>)
    ensures |r| == |artworks| && forall i :: 0 <= i < |artworks| ==> r[i] == ToCmsItem(artworks[i])
  {
    seq(|artworks|, i requires 0 <= i < |artworks| => ToCmsItem(artworks[i]))
  }

  /** `artworks.map(...)` for the Velo export: one item per artwork, in order. */
  function VeloItems(artworks: seq<Artwork>): (r: seq<VeloItem>)
    ensures |r| == |artworks| && forall i :: 0 <= i < |artworks| ==> r[i] == ToVeloItem(artworks[i])
  {
    seq(|artworks|, i requires 0 <= i < |artworks| => ToVeloItem(artworks[i]))
  }

  // ---------------------------------------------------------------------
  // POST /api/export

  /** `ExportFormat`: the payload of a successful export. */
  datatype ExportFormat = ExportFormat(exportType: ExportType, data: string, filename: string)

  /** The artworks an export request selects: a non-empty id list wins,
      then a status, and otherwise everything, always in stored order. */
  function ExportSelection(artworks: seq<Artwork>, request: ExportRequest): (r: seq<Artwork>)
    ensures forall x :: x in r ==> x in artworks
    ensures request.artworkIds.Some? && |request.artworkIds.value| > 0 ==>
      r == FilterByIds(artworks, request.artworkIds.value)
    ensures !(request.artworkIds.Some? && |request.artworkIds.value| > 0) && request.status.Some? ==>
      r == FilterByStatus(artworks, request.status.value)
    ensures !(request.artworkIds.Some? && |request.artworkIds.value| > 0) && request.status.None? ==>
      r == artworks
  {
    if request.artworkIds.Some? && |request.artworkIds.value| > 0 then
      FilterByIdsMembers(artworks, request.artworkIds.value);
      FilterByIds(artworks, request.artworkIds.value)
    else if request.status.Some? then
      FilterByStatusMembers(artworks, request.status.value);
      FilterByStatus(artworks, request.status.value)
    else artworks
  }

  /** The download name for a format at clock reading `now`. */
  function ExportFilename(format: ExportType, now: nat): (r: string)
    ensures |r| > |FormatExtension(format)|
    ensures r[|r| - |FormatExtension(format)|..] == FormatExtension(format)
    ensures r[..|r| - |FormatExtension(format)|] == FilenameStem(format) + NatToString(now)
  {
    match format
    case Csv => "artworks-export-" + NatToString(now) + ".csv"
    case Json => "artworks-export-" + NatToString(now) + ".json"
    case Velo => "artworks-velo-" + NatToString(now) + ".js"
  }

  /** The part of the download name before the clock reading. */
  function FilenameStem(format: ExportType): string {
    if format == Velo then "artworks-velo-" else "artworks-export-"
  }

  function FormatExtension(format: ExportType): string {
    match format
    case Csv => ".csv"
    case Json => ".json"
    case Velo => ".js"
  }

  /** A prefix without dots, a decimal number and an extension: the
      extension is what `path.extname` reports. */
  lemma NumberedNameExtension(prefix: string, digits: string, suffix: string)
    requires |prefix| >= 1 && '.' !in prefix && '/' !in prefix
    requires |digits| >= 1 && forall i :: 0 <= i < |digits| ==> '0' <= digits[i] <= '9'
    requires Image.IsExtension(suffix)
    ensures Image.Extname(prefix + digits + suffix) == suffix
  {
    var stem := prefix + digits;
    assert '.' !in stem && '/' !in stem;
    assert |stem| >= 2;
    Image.ExtnameOfName("", stem, suffix);
    assert "" + stem == stem;
  }

  /** Each format's download name carries that format's extension. */
  lemma ExportFilenameExtension(format: ExportType, now: nat)
    ensures Image.Extname(ExportFilename(format, now)) == FormatExtension(format)
  {
    var digits := NatToString(now);
    match format {
      case Csv =>
        assert ".csv"[1..] == "csv";
        NumberedNameExtension("artworks-export-", digits, ".csv");
      case Json =>
        assert ".json"[1..] == "json";
        NumberedNameExtension("artworks-export-", digits, ".json");
      case Velo =>
        assert ".js"[1..] == "js";
        NumberedNameExtension("artworks-velo-", digits, ".js");
    }
  }

  /** The text a successful export returns. The JSON text and the Velo
      script are renderings of the mapped items, passed as parameters. */
  function ExportData(format: ExportType, selected: seq<Artwork>, showNumber: real -> string,
                      renderJson: seq<CmsItem> -> string, renderVelo: seq<VeloItem> -> string): (r: string)
    ensures format == Csv ==> r == GenerateCSV(selected, showNumber)
    ensures format == Json ==> r == renderJson(CmsItems(selected))
    ensures format == Velo ==> r == renderVelo(VeloItems(selected))
  {
    match format
    case Csv => GenerateCSV(selected, showNumber)
    case Json => renderJson(CmsItems(selected))
    case Velo => renderVelo(VeloItems(selected))
  }

  const NothingSelected: string := "No artworks found matching the criteria"

  /** The response of `POST /api/export`, given the rate-limit verdict, the
      request body (`Err` carries the message of a body that is not JSON),
      the stored artworks and the clock. */
  function ExportResponse(allowed: bool, body: Result<ExportRequestInput, string>, artworks: seq<Artwork>,
                          now: nat, nodeEnv: Option<string>, showNumber: real -> string,
                          renderJson: seq<CmsItem> -> string, renderVelo: seq<VeloItem> -> string): (r: Response<ExportFormat>)
    ensures !allowed ==> r == HandleApiError(ThrownApiError(RateLimitError()), nodeEnv)
    ensures !allowed ==> r.status == 429 && !r.body.success
    ensures r.body.success <==>
      && allowed && body.Ok? && ExportSchema(body.value).Success?
      && |ExportSelection(artworks, ExportSchema(body.value).data)| > 0
    ensures r.body.success ==>
      var request := ExportSchema(body.value).data;
      && r.status == 200
      && r.body.data == Some(ExportFormat(request.format,
           ExportData(request.format, ExportSelection(artworks, request), showNumber, renderJson, renderVelo),
           ExportFilename(request.format, now)))
    ensures allowed && body.Err? ==>
      r == HandleApiError(ThrownError(body.error), nodeEnv) && r.status == 500
    ensures allowed && body.Ok? && ExportSchema(body.value).Failure? ==>
      r.status == 400 && r.body.error == Some(InvalidInput)
    ensures (allowed && body.Ok? && ExportSchema(body.value).Success? &&
             |ExportSelection(artworks, ExportSchema(body.value).data)| == 0) ==>
      r.status == 400 && r.body.error == Some(NothingSelected)
  {
    if !allowed then HandleApiError(ThrownApiError(RateLimitError()), nodeEnv)
    else if body.Err? then HandleApiError(ThrownError(body.error), nodeEnv)
    else match ExportSchema(body.value)
      case Failure => HandleApiError(ThrownApiError(ValidationError(InvalidInput)), nodeEnv)
      case Success(request) =>
        var selected := ExportSelection(artworks, request);
        if |selected| == 0 then HandleApiError(ThrownApiError(ValidationError(NothingSelected)), nodeEnv)
        else OkResponse(200, ExportFormat(request.format,
               ExportData(request.format, selected, showNumber, renderJson, renderVelo),
               ExportFilename(request.format, now)))
  }

  /** The limit is checked before the body is looked at: a rejected call is
      answered the same way whatever it carries. */
  lemma RateLimitComesFirst(body1: Result<ExportRequestInput, string>, body2: Result<ExportRequestInput, string>,
                            artworks1: seq<Artwork>, artworks2: seq<Artwork>, now: nat, nodeEnv: Option<string>,
                            showNumber: real -> string, renderJson: seq<CmsItem> -> string, renderVelo: seq<VeloItem> -> string)
    ensures ExportResponse(false, body1, artworks1, now, nodeEnv, showNumber, renderJson, renderVelo) ==
            ExportResponse(false, body2, artworks2, now, nodeEnv, showNumber, renderJson, renderVelo)
  {
  }

  const ExportLimit: int := 10

  /** `POST /api/export` against the process's limiter and store. The
      limiter reads the clock at `requestTime`; the download name uses the
      later reading `now`. */
  method ExportPost(limiter: RateLimiter, store: ArtworkStore, forwardedFor: Option<string>,
                    body: Result<ExportRequestInput, string>, requestTime: int, now: nat, nodeEnv: Option<string>,
                    showNumber: real -> string, renderJson: seq<CmsItem> -> string, renderVelo: seq<VeloItem> -> string)
    returns (r: Response<ExportFormat>)
    modifies limiter
    ensures var d := Check(old(limiter.store), "export:" + ClientIdentifier(forwardedFor), ExportLimit, WindowMs, requestTime);
      && limiter.store == d.store
      && r == ExportResponse(d.allowed, body, store.artworks, now, nodeEnv, showNumber, renderJson, renderVelo)
  {
    var allowed := limiter.CheckRateLimit("export:" + ClientIdentifier(forwardedFor), requestTime, ExportLimit, WindowMs);
    if !allowed {
      return HandleApiError(ThrownApiError(RateLimitError()), nodeEnv);
    }
    if body.Err? {
      return HandleApiError(ThrownError(body.error), nodeEnv);
    }
    var parsed := ExportSchema(body.value);
    if parsed.Failure? {
      return HandleApiError(ThrownApiError(ValidationError(InvalidInput)), nodeEnv);
    }
    var request := parsed.data;
    var selected: seq<Artwork>;
    if request.artworkIds.Some? && |request.artworkIds.value| > 0 {
      selected := store.GetArtworksByIds(request.artworkIds.value);
    } else if request.status.Some? {
      selected := store.GetArtworksByStatus(request.status.value);
    } else {
      selected := store.GetArtworks();
    }
    if |selected| == 0 {
      return HandleApiError(ThrownApiError(ValidationError(NothingSelected)), nodeEnv);
    }
    var data := ExportData(request.format, selected, showNumber, renderJson, renderVelo);
    r := OkResponse(200, ExportFormat(request.format, data, ExportFilename(request.format, now)));
  }
}
