# Artwork catalog core in Dafny

This project models the server-side core of an artwork-catalog web
application and proves properties of that model. The application keeps a
collection of artwork records in one JSON document, validates every request
with declarative schemas, limits each client with a fixed-window rate
limiter, and maps every failure to an error envelope. It exports the
collection as a Wix product CSV, a CMS JSON document or a Velo script. It
turns an uploaded image into a new draft record.

The modules follow the application's files:

- `Wrappers` and `Strings` hold `Option`/`Result`, `Min`/`Max`, JavaScript's
  `join` and `slice`, ASCII case mapping and decimal rendering.
- `Types` (`src/lib/types.ts`) holds the record types and the status names.
- `Errors` (`src/lib/errors.ts`) holds the error classes, `handleApiError`
  and the rate limiter. The limiter's table is the `store` field of the
  class `RateLimiter`. Its methods are proved against the functions `Check`
  and `Swept`.
- `Validation` (`src/lib/validation.ts`) holds `sanitizeString`, each zod
  schema as a total function to `Success(data)` or `Failure`, and
  `validateImageFile`.
- `Db` (`src/lib/db.ts`) holds the store. The JSON document is the
  `artworks` field of the class `ArtworkStore`. Every method states the new
  value of that field.
- `Image` (`src/lib/image.ts`) holds the naming and format rules of
  `processImage`: extension normalisation, the format and media-type table,
  the file names and the resize decision.
- `ExportRoute`, `UploadRoute` and `ArtworksRoute` hold the three route
  handlers. Each handler is a function from its inputs to the response,
  plus a method that runs it against the shared limiter and store.

The clock, the `NODE_ENV` setting, the `x-forwarded-for` header, generated
UUIDs, the outcome of decoding the image (its dimensions, or the message
the decoder throws), the outcome of the AI analysis (its result, or the
message it throws), `parseFloat` and the
rendering of numbers and JSON are all parameters.

## Model

| member | source | states |
|---|---|---|
| Types.ParseStatus | src/lib/validation.ts:17 | exactly "draft", "published" and "archived" are recognised, and the status read back has that name |
| Types.StatusRoundTrip | src/lib/types.ts:12 | reading the name of a status gives that status back |
| Errors.ErrorStatusCodes | src/lib/errors.ts:4-41 | the error classes answer with 400, 404 ("<resource> not found"), 401 (default "Unauthorized"), 429 and, for the base class, 500 |
| Errors.HandleApiError | src/lib/errors.ts:43-68 | every response is a failure envelope; an ApiError keeps its status and message; any other Error gets 500 and its message only in development, otherwise the generic text; a non-Error value gets 500 and the generic text |
| Errors.ClientIdentifier | src/app/api/export/route.ts:99 | the forwarded address when it is present and non-empty, otherwise "anonymous"; never empty |
| Errors.Check | src/lib/errors.ts:74-93 | a missing or expired entry (strictly `now > resetTime`) is reset to count 1 and accepted; inside the window the call is accepted iff count < maxRequests, and only then is the count raised by one; no other entry changes |
| Errors.VerdictsInWindow | src/lib/errors.ts:82-92 | inside an open window holding `count` requests, call i of a run is accepted iff count + i < max(1, maxRequests) |
| Errors.WindowLimit | src/lib/errors.ts:82-92 | when a run opens a fresh window and stays inside it, exactly the first max(1, maxRequests) calls are accepted and every later call is rejected |
| Errors.AcceptedAfterExpiry | src/lib/errors.ts:82-85 | once the window has ended, the next call is accepted |
| Errors.CountBounded | src/lib/errors.ts:82-92 | the stored count never exceeds max(1, maxRequests) |
| Errors.VerdictIsLocal | src/lib/errors.ts:80-92 | the verdict and the new entry depend only on the identifier's own entry |
| Errors.Swept | src/lib/errors.ts:96-103 | the swept table keeps exactly the entries whose window has not ended, unchanged |
| Errors.SweepIsUnobservable | src/lib/errors.ts:96-103 | a sweep at or before a check leaves that check's verdict and new entry unchanged |
| Errors.RateLimiter.constructor | src/lib/errors.ts:72 | the process starts with an empty table |
| Errors.RateLimiter.CheckRateLimit | src/lib/errors.ts:74-93 | the verdict and the new table are those of `Check` on the old table |
| Errors.RateLimiter.Sweep | src/lib/errors.ts:96-103 | the loop that deletes expired entries leaves exactly `Swept` of the old table |
| Validation.StripAngles | src/lib/validation.ts:6 | the result holds no `<` or `>`, is no longer than the input, and equals an input that holds none |
| Validation.StripAnglesConcat | src/lib/validation.ts:6 | stripping distributes over concatenation, so every other character survives in order |
| Validation.Trim | src/lib/validation.ts:7 | the result is the infix left after a white-space prefix and a white-space suffix, and it neither starts nor ends with white space |
| Validation.SanitizeString | src/lib/validation.ts:4-9 | the result holds no angle bracket, is at most 10000 characters and no longer than the input, never starts with white space, and ends without white space when under the cap |
| Validation.SanitizeExample | src/lib/validation.ts:4-9 | "<b>Hello</b>" sanitises to "bHello/b" |
| Validation.SanitizeIdempotentBelowCap | src/lib/validation.ts:6-8 | sanitising again changes nothing when the first result is under the cap |
| Validation.SanitizeNotIdempotentAtCap | src/lib/validation.ts:6-8 | at the cap a second pass can change the result, because cutting runs after trimming |
| Validation.TrimDecomposed | src/lib/validation.ts:7 | trimming white space, then a text that neither starts nor ends with white space, then white space, gives exactly that text |
| Validation.SanitizeDecomposed | src/lib/validation.ts:4-9 | the order is strip, then trim, then cut: when stripping leaves white space around a text m that neither starts nor ends with white space, the result is the first 10000 characters of m |
| Validation.SanitizeCleanText | src/lib/validation.ts:4-9 | text under the cap without angle brackets and without white space at either end comes back unchanged |
| Validation.OptionalText | src/lib/validation.ts:13 | accepted iff absent or its raw length is within the cap; the value is then sanitised and still within the cap |
| Validation.NullableText | src/lib/validation.ts:31 | the same rule, with null accepted and passed on |
| Validation.OptionalTextList | src/lib/validation.ts:25-26 | accepted iff absent or within the count cap with every item within the item cap; every item is then sanitised |
| Validation.OptionalStatus | src/lib/validation.ts:17 | accepted iff absent or a status name; the status read has that name |
| Validation.ArtworkCreateSchema | src/lib/validation.ts:12-18 | accepted iff every text is within its cap, the price is in 0..1000000 and the status is a status name; the data is the sanitised texts with the price and status; an accepted title is at most 200 characters |
| Validation.ArtworkUpdateSchema | src/lib/validation.ts:20-32 | accepted iff every field is within its limits (null price and notes allowed); each present field is passed on sanitised and each absent field stays absent |
| Validation.UuidSchema | src/lib/validation.ts:55 | accepted iff the text is 36 characters of hex digits with hyphens at positions 8, 13, 18 and 23 |
| Validation.UuidFromGroupsIsUuid | src/lib/validation.ts:55 | five hex groups of lengths 8, 4, 4, 4 and 12 joined by hyphens are accepted |
| Validation.UuidHasGroups | src/lib/validation.ts:55 | every accepted id is five such groups joined by hyphens |
| Validation.ParseRole | src/lib/validation.ts:38 | exactly "user" and "assistant" are roles |
| Validation.ChatMessageSchema | src/lib/validation.ts:34-41 | accepted iff the artwork id is a UUID, the raw message has 1..2000 characters and the history has at most 50 entries, each with a role and content of at most 5000 characters; the message is then sanitised |
| Validation.ChatMessageMayBecomeEmpty | src/lib/validation.ts:36 | the message "<>" is accepted and sanitises to the empty message |
| Validation.ParseExportType | src/lib/validation.ts:44 | exactly "csv", "json" and "velo" are formats |
| Validation.ExportSchema | src/lib/validation.ts:43-47 | accepted iff the format is known, the ids (when present) are 1..100 UUIDs and the status (when present) is a status name; the data carries them unchanged |
| Validation.PrintfulSchema | src/lib/validation.ts:49-52 | accepted iff the artwork id is a UUID and there are 1..20 product types of at most 50 characters; the data is the input |
| Validation.SizeLimitText | src/lib/validation.ts:58-63 | the size limit in the message reads "10" megabytes |
| Validation.AllowedTypesText | src/lib/validation.ts:59-66 | the type message lists the four allowed types separated by ", " |
| Validation.ValidateImageFile | src/lib/validation.ts:61-69 | valid iff size <= 10 MiB and the type is allowed; size is checked first and its message is "File size exceeds 10MB limit"; otherwise the type message lists the allowed types |
| Db.FirstIndex | src/lib/db.ts:52 | -1 iff no record has the id, otherwise the position of the first record with it |
| Db.FilterByStatus | src/lib/db.ts:100-103 | the status filter is never longer than the collection; its members, counts and order are stated by the three FilterByStatus lemmas |
| Db.FilterByIds | src/lib/db.ts:106-109 | the id filter is never longer than the collection; its members, counts and order are stated by the four FilterByIds lemmas |
| Db.Merge | src/lib/db.ts:58-62 | every key present in the update replaces the stored value, every absent key keeps it, `updatedAt` becomes the clock, and id, creation time, image paths and dimensions are kept |
| Db.MergeNoChange | src/lib/db.ts:58-62 | an empty update changes only `updatedAt` |
| Db.MergeIdempotent | src/lib/db.ts:58-62 | applying the same update twice at the same time equals applying it once |
| Db.MergeCompose | src/lib/db.ts:58-62 | two updates in a row equal one update made of the second laid over the first |
| Db.FilterByStatusMembers | src/lib/db.ts:100-103 | the status filter holds exactly the stored records with that status |
| Db.FilterByIdsMembers | src/lib/db.ts:106-109 | the id filter holds exactly the stored records whose id is named |
| Db.FilterByStatusConcat | src/lib/db.ts:102 | the status filter distributes over concatenation, so stored order is kept |
| Db.FilterByIdsConcat | src/lib/db.ts:108 | the id filter distributes over concatenation, so stored order is kept |
| Db.FilterByStatusCounts | src/lib/db.ts:102 | each record occurs in the result as often as it is stored when it has the status, and never otherwise |
| Db.FilterByIdsCounts | src/lib/db.ts:108 | each record occurs as often as it is stored when its id is named, and never otherwise, so repeated or unknown ids add nothing |
| Db.FilterByIdsSetOnly | src/lib/db.ts:108 | only the set of named ids matters, not their order or repetition |
| Db.AppendFreshKeepsUnique | src/lib/db.ts:42-47 | appending a record whose id is not stored keeps ids unique |
| Db.AppendFreshIsFound | src/lib/db.ts:42-47 | after appending a fresh record, a lookup of its id finds it at the end |
| Db.MergeInPlaceKeepsUnique | src/lib/db.ts:64 | storing the merged record at its position keeps ids unique, and the id is still found there |
| Db.RemoveKeepsUnique | src/lib/db.ts:95 | removing one record keeps ids unique |
| Db.RemoveFoundLeavesNone | src/lib/db.ts:73-95 | with unique ids, removing the record found for an id leaves no record with it, so a second delete fails |
| Db.RemoveDuplicateLeavesOne | src/lib/db.ts:73-95 | with a duplicated id, the second copy is found after the first is removed |
| Db.ImageFiles | src/lib/db.ts:85-90 | the files to unlink are exactly the record's non-empty image and thumbnail paths |
| Db.ArtworkStore.constructor | src/lib/db.ts:25-28 | the store holds the records of the document, in order |
| Db.ArtworkStore.GetArtworks | src/lib/db.ts:25-29 | the whole collection in stored order |
| Db.ArtworkStore.FindIndex | src/lib/db.ts:52 | the scan returns `FirstIndex` of the collection |
| Db.ArtworkStore.GetArtwork | src/lib/db.ts:32-39 | the first record with the id, or "Artwork not found" when there is none |
| Db.ArtworkStore.CreateArtwork | src/lib/db.ts:42-47 | the collection becomes the old one plus the record at the end; ids stay unique when the record's id was fresh |
| Db.ArtworkStore.UpdateArtwork | src/lib/db.ts:50-68 | an absent id gives "Artwork not found" and no change; otherwise only the first matching position is replaced, by the merged record, which is returned; unique ids stay unique |
| Db.ArtworkStore.DeleteArtwork | src/lib/db.ts:71-97 | an absent id gives "Artwork not found" and no change; otherwise exactly the first matching record is removed, the rest keep their order, and the record's image files are listed for unlinking; with unique ids the id is then gone |
| Db.ArtworkStore.GetArtworksByStatus | src/lib/db.ts:100-103 | the loop returns `FilterByStatus` of the collection |
| Db.ArtworkStore.GetArtworksByIds | src/lib/db.ts:106-109 | the loop returns `FilterByIds` of the collection |
| Image.Extname | src/lib/image.ts:36 | the extension taken from the last path segment is empty or starts with a dot and holds no separator |
| Image.ExtnameOfName | src/lib/image.ts:36 | a name made of a stem and a dot-led suffix without further dots reports that suffix as its extension |
| Image.ExtnameNoDot | src/lib/image.ts:36 | a name without a dot has no extension |
| Image.ExtnameDotFile | src/lib/image.ts:36 | a name whose only dot is its first character (a dot file) has no extension |
| Image.DotFileIsStoredAsJpeg | src/lib/image.ts:36-37 | an upload named ".png" has no extension and is therefore stored as ".jpg" |
| Image.NormalizedExt | src/lib/image.ts:36 | the lower-cased extension, with `.jpg` for a name without one |
| Image.SafeExt | src/lib/image.ts:37 | always one of .jpg, .jpeg, .png, .webp and .gif; a recognised extension is kept and anything else becomes .jpg |
| Image.SafeExtShape | src/lib/image.ts:37 | every allowed extension is a dot followed by dot-free letters |
| Image.FormatFor | src/lib/image.ts:45-58 | .png and .gif give PNG, .webp gives WebP, anything else gives JPEG, each with its media type; never image/gif |
| Image.Suffix | src/lib/image.ts:61 | .gif is written as .png, and every other extension is kept as it is, so the suffix is allowed and never .gif |
| Image.MediaTypeMatchesSuffix | src/lib/image.ts:45-61 | the reported media type is the one the written suffix announces |
| Image.ShouldResize | src/lib/image.ts:41-65 | resize iff a side exceeds 2000 pixels; missing dimensions count as 0, so they never cause a resize |
| Image.ProcessImage | src/lib/image.ts:35-104 | the paths are "/uploads/" + id + suffix and "/uploads/" + id + "_thumb" + suffix, the media type matches the suffix, the dimensions default to 0, and the main image is resized only when oversize |
| Image.UploadPathExtension | src/lib/image.ts:98 | an uploads path made of a dot-free id and an allowed suffix reports that suffix as its extension |
| Image.StoredPathExtension | src/lib/image.ts:61-98 | the stored main path of a UUID-named upload has the chosen suffix as its extension |
| ExportRoute.EscapeQuotes | src/app/api/export/route.ts:22 | doubling quotes never shortens the text |
| ExportRoute.EscapedIsWellEscaped | src/app/api/export/route.ts:22 | after escaping, every quote is one of a doubled pair |
| ExportRoute.EscapeRoundTrip | src/app/api/export/route.ts:22 | reading the doubled quotes back gives the original text |
| ExportRoute.EscapeNoQuotes | src/app/api/export/route.ts:22 | text without quotes is left alone |
| ExportRoute.EscapeConcat | src/app/api/export/route.ts:22 | escaping distributes over concatenation |
| ExportRoute.QuotedFieldRoundTrip | src/app/api/export/route.ts:22 | a quoted title cell reads back as the title |
| ExportRoute.DescriptionCell | src/app/api/export/route.ts:23 | the cell is a quote, then the first min(8000, length) characters of the escaped description, then a quote |
| ExportRoute.DescriptionCellFits | src/app/api/export/route.ts:23 | a description whose escaped form fits in 8000 characters is an ordinary quoted field that reads back as the description |
| ExportRoute.DescriptionCellSplitsQuote | src/app/api/export/route.ts:23 | 7999 letters and a quote give a cell whose cut separates the doubled quote, so the cell is malformed |
| ExportRoute.PriceCell | src/app/api/export/route.ts:24 | empty for a missing price and for 0, otherwise the rendered price |
| ExportRoute.SkuCell | src/app/api/export/route.ts:25 | the first min(8, length) characters of the id, upper-cased |
| ExportRoute.VisibleCell | src/app/api/export/route.ts:26 | "true" iff the status is published, else "false" |
| ExportRoute.CollectionCell | src/app/api/export/route.ts:28 | the cell starts and ends with a quote |
| ExportRoute.CollectionCellFew | src/app/api/export/route.ts:28 | up to three tags all appear, joined by ", " between the quotes |
| ExportRoute.CollectionCellFirstThree | src/app/api/export/route.ts:28 | with three tags or more, only the first three appear, joined by ", "; the rest never matter |
| ExportRoute.CollectionCellNotEscaped | src/app/api/export/route.ts:28 | tags are not escaped, so a tag holding a quote makes the cell malformed |
| ExportRoute.CsvRow | src/app/api/export/route.ts:20-29 | eight cells in header order: the id, the title cell that reads back as the title, the description cell, the price cell, the SKU, the visibility, the image path and the collection cell |
| ExportRoute.RowLines | src/app/api/export/route.ts:31 | one line per artwork, line i being row i joined by commas |
| ExportRoute.RowLinesAppend | src/app/api/export/route.ts:31 | one more artwork adds its line at the end |
| ExportRoute.GenerateCSVEmpty | src/app/api/export/route.ts:8-32 | no artworks give just the header names joined by commas; with GenerateCSVAppend this determines `GenerateCSV` on every input |
| ExportRoute.GenerateCSVAppend | src/app/api/export/route.ts:8-32 | one more artwork adds a newline and its row at the end of `GenerateCSV`, so rows follow input order |
| ExportRoute.ExportSelection | src/app/api/export/route.ts:117-123 | a non-empty id list selects by ids, else a status selects by status, else everything; only stored records are selected |
| ExportRoute.CmsItems | src/app/api/export/route.ts:36-50 | one CMS item per artwork, item i mapped from artwork i |
| ExportRoute.VeloItems | src/app/api/export/route.ts:57-62 | one Velo item per artwork, item i mapped from artwork i |
| ExportRoute.ExportData | src/app/api/export/route.ts:129-145 | csv gives the generated CSV; json and velo give the renderer applied to the CMS or Velo items of the selection, in order |
| ExportRoute.ExportFilename | src/app/api/export/route.ts:136-144 | the name is "artworks-export-" (or "artworks-velo-" for velo), then the decimal clock reading, then the format extension |
| ExportRoute.ExportFilenameExtension | src/app/api/export/route.ts:133-148 | csv, json and velo names end in the extensions .csv, .json and .js |
| ExportRoute.ExportResponse | src/app/api/export/route.ts:96-157 | 429 when rate-limited, answered exactly as the error handler answers a `RateLimitError`; 500 through the error handler when the body is not JSON; success iff the body passes the schema and selects at least one record, with the format's data and file name; 400 with "Invalid input" when the schema rejects, and 400 with "No artworks found matching the criteria" when nothing is selected |
| ExportRoute.RateLimitComesFirst | src/app/api/export/route.ts:99-102 | a rate-limited call is answered the same whatever its body and whatever is stored |
| ExportRoute.ExportPost | src/app/api/export/route.ts:96-157 | the limiter is checked under "export:" + client with 10 per 60000 ms at the request's clock reading, and the response is `ExportResponse` of that verdict with the later reading in the file name |
| UploadRoute.FormValue | src/app/api/upload/route.ts:38-40 | an empty form value counts as absent |
| UploadRoute.UploadChecks | src/app/api/upload/route.ts:26-45 | a missing file fails first, then a file rejected with its own message; a valid file passes iff the price text is absent or reads as a number and `artworkCreateSchema` accepts the non-empty form values, and the data is then the schema's (sanitised title and notes, the parsed price); otherwise "Invalid input" |
| UploadRoute.NewArtwork | src/app/api/upload/route.ts:59-79 | the record is a draft with created and updated time both `now`, the form's title when non-empty and else the analysis title, the form's price and notes, the image's paths and dimensions and the analysis's metadata |
| UploadRoute.NewArtworkLifecycle | src/app/api/upload/route.ts:59-79 | a new record is a fresh draft; a later edit keeps its id, creation time and image path and keeps it a draft unless the edit sets a status |
| UploadRoute.UploadResponse | src/app/api/upload/route.ts:11-87 | 429 when rate-limited, answered exactly as the error handler answers a `RateLimitError`, with no record; 500 through the error handler for a body that is not form data, an image that cannot be decoded or an analysis that throws; 400 with its message for a failed check; a record is created iff every check passes and both the decoding and the analysis succeed, and it is returned with 201 |
| UploadRoute.FileGuardsComeFirst | src/app/api/upload/route.ts:26-34 | the file checks decide the answer whatever the other fields hold |
| UploadRoute.UploadPost | src/app/api/upload/route.ts:11-87 | the limiter is checked under "upload:" + client with 10 per 60000 ms at the request's clock reading; the response is `UploadResponse` and the created record, if any, is appended to the store |
| ArtworksRoute.ListSelection | src/app/api/artworks/route.ts:17-25 | a recognised status selects by status, an absent or unknown one selects everything |
| ArtworksRoute.ListSelectionByStatus | src/app/api/artworks/route.ts:21-22 | a listing by status holds exactly the stored records with that status |
| ArtworksRoute.SortNewestFirst | src/app/api/artworks/route.ts:28 | the array is sorted newest first and holds the same records |
| ArtworksRoute.ListGet | src/app/api/artworks/route.ts:7-34 | the limiter is checked under "artworks:list:" + client with 100 per 60000 ms; the listing is the selection, reordered newest first |

## Left out

- File and image I/O: reading and writing the JSON document, `ensureDataFile`, creating directories, `sharp` resizing and encoding, the base64 preview and `deleteImageFiles`. The document is the `artworks` field, and the image work is reduced to the names and decisions `ProcessImage` returns.
- Db.ArtworkStore.DeleteArtwork: returns the paths it unlinks instead of unlinking them. An unlink failure is ignored by the application, so it cannot affect the removal.
- Concurrency: the lost-update race between concurrent read-modify-write calls, and the `setInterval` timer that runs the sweep. Only the sweep body is modelled, as `RateLimiter.Sweep`.
- The AI client (`src/lib/ai.ts`), the Printful client (`src/lib/printful.ts`) and the chat and Printful routes. The analysis outcome is a parameter of the upload handler, and only the schemas those routes use are modelled.
- Rendering the JSON and Velo exports: the JSON text and the Velo script are rendered by parameters from the mapped items (`ToCmsItem`, `ToVeloItem`), because they are `JSON.stringify` output.
- ExportRoute.PriceCell: how JavaScript prints a number is the parameter `showNumber`.
- UploadRoute.UploadChecks: `parseFloat` is the parameter `parsePrice`, with `None` for a text read as NaN. The message of a schema failure is "Invalid input", because the text of zod's messages is not modelled.
- ExportRoute.ExportResponse: a schema failure answers "Invalid input" for the same reason. The `default` branch of the format switch ("Invalid export format") is not modelled, because the schema admits only the three formats.
- Timestamps are integers, not ISO-8601 strings. The handlers read the clock more than once: the upload and export methods take the rate-limit reading (`requestTime`) and the later record or file-name reading (`now`) as separate parameters; the three `Date.now()` calls of the export switch are one reading, because only one of them runs. `Date.now()` and `new Date().toISOString()` are clock parameters, and the listing sorts on the integer `createdAt`.
- UUID generation is not modelled: the upload handler takes the image id and the record id as parameters.
- ArtworksRoute.SortNewestFirst: does not state that equal timestamps keep their stored order (stability).
- Validation.Trim: works on code points. JavaScript strings are UTF-16 units, so lengths and caps are counted in code points throughout.
- Image.NormalizedExt: lower-cases ASCII letters only. `ExportRoute.SkuCell` likewise upper-cases ASCII letters only.
- Image.Extname: follows the POSIX rules of `path.extname`; the Windows variant is not modelled.
- The `GET` handler of the upload route, which only returns the two file constants, is not modelled.
- Logging: the `console.error` call in `handleApiError` is not modelled; it does not affect the response.
- The schemas take typed inputs (`ArtworkCreateInput`, `ArtworkUpdateInput`, `ChatRequestInput`, `ExportRequestInput`, `PrintfulRequest`). A JSON value with a missing or wrongly typed field cannot be represented: `{}`, `{"format": 1}`, `{"format": "csv", "artworkIds": "x"}`, or a `null` or array body. zod rejects each of them, so the export route answers 400 "Invalid input", the same branch the model covers for a rejected typed input.
- The `code` of each error class is carried in `ApiError` but never reaches a response, so no property is stated about it.
