/** The upload endpoint (src/app/api/upload/route.ts): the order of its
    guards and the draft record it builds from the validated form, the
    image-processing result and the image analysis. */
module UploadRoute {
  import opened Wrappers
  import opened Types
  import opened Errors
  import opened Validation
  import opened Db
  import Image

  /** The multipart fields the handler reads; `None` is a missing field. */
  datatype UploadForm = UploadForm(
    file: Option<FileInfo>,
    artistNotes: Option<string>,
    title: Option<string>,
    price: Option<string>)

  /** `value || undefined`: an empty form value counts as absent. */
  function FormValue(v: Option<string>): (r: Option<string>)
    ensures r.Some? <==> v.Some? && v.value != ""
    ensures r.Some? ==> r == v
  {
    if v.Some? && v.value != "" then v else None
  }

  const NoFile: string := "No file provided"
  const InvalidFile: string := "Invalid file"

  /** The input handed to `artworkCreateSchema`: the non-empty form values,
      with the price read by `parsePrice`. */
  function CreateInput(form: UploadForm, parsePrice: string -> Option<real>): ArtworkCreateInput {
    var priceText := FormValue(form.price);
    ArtworkCreateInput(FormValue(form.title), None, FormValue(form.artistNotes),
                       if priceText.Some? then parsePrice(priceText.value) else None, None)
  }

  /** A price text that is absent or reads as a number. */
  predicate PriceParses(form: UploadForm, parsePrice: string -> Option<real>) {
    FormValue(form.price).None? || parsePrice(FormValue(form.price).value).Some?
  }

  /** The input checks in the handler's order: a file must be present, it
      must pass `validateImageFile`, and the optional fields must pass
      `artworkCreateSchema`. `parsePrice` is `parseFloat`, with `None` for
      a text it reads as NaN, which the schema's number check rejects. */
  function UploadChecks(form: UploadForm, parsePrice: string -> Option<real>): (r: Result<ArtworkCreate, ApiError>)
    ensures form.file.None? ==> r == Err(ValidationError(NoFile))
    ensures form.file.Some? && !ValidateImageFile(form.file.value).valid ==>
      r == Err(ValidationError(ValidateImageFile(form.file.value).error.GetOr(InvalidFile)))
    ensures form.file.Some? && ValidateImageFile(form.file.value).valid ==>
      (r.Ok? <==> PriceParses(form, parsePrice) && ArtworkCreateSchema(CreateInput(form, parsePrice)).Success?)
    ensures r.Ok? ==> r.value == ArtworkCreateSchema(CreateInput(form, parsePrice)).data
    ensures r.Ok? ==>
      var price := FormValue(form.price);
      && (price.Some? ==> parsePrice(price.value).Some? && r.value.price == parsePrice(price.value))
      && (price.None? ==> r.value.price.None?)
      && r.value.title == SanitizeOpt(FormValue(form.title))
      && r.value.artistNotes == SanitizeOpt(FormValue(form.artistNotes))
    ensures r.Err? && form.file.Some? && ValidateImageFile(form.file.value).valid ==>
      r == Err(ValidationError(InvalidInput))
  {
    if form.file.None? then Err(ValidationError(NoFile))
    else
      var check := ValidateImageFile(form.file.value);
      if !check.valid then Err(ValidationError(check.error.GetOr(InvalidFile)))
      else if !PriceParses(form, parsePrice) then Err(ValidationError(InvalidInput))
      else
        match ArtworkCreateSchema(CreateInput(form, parsePrice))
        case Failure => Err(ValidationError(InvalidInput))
        case Success(data) => Ok(data)
  }

  /** The new record: a draft whose creation and update times are the same
      clock reading, titled by the form when it gave a non-empty title and
      by the analysis otherwise, carrying the processed image's paths and
      dimensions and the analysis's descriptive metadata. */
  function NewArtwork(id: string, data: ArtworkCreate, processed: Image.ProcessedImage,
                      analysis: AIAnalysisResult, now: int): (a: Artwork)
    ensures a.id == id
    ensures a.status == Draft && a.createdAt == now && a.updatedAt == now
    ensures data.title.Some? && data.title.value != "" ==> a.title == data.title.value
    ensures data.title.None? || data.title.value == "" ==> a.title == analysis.title
    ensures a.price == data.price && a.artistNotes == data.artistNotes
    ensures a.imagePath == processed.imagePath && a.thumbnailPath == processed.thumbnailPath
    ensures a.originalWidth == processed.originalWidth && a.originalHeight == processed.originalHeight
    ensures a.description == analysis.description && a.seoTitle == analysis.seoTitle
    ensures a.seoDescription == analysis.seoDescription && a.tags == analysis.tags
    ensures a.colors == analysis.colors && a.mood == analysis.mood && a.personality == analysis.personality
  {
    Artwork(
      id := id,
      title := if data.title.Some? && data.title.value != "" then data.title.value else analysis.title,
      description := analysis.description,
      seoTitle := analysis.seoTitle,
      seoDescription := analysis.seoDescription,
      tags := analysis.tags,
      colors := analysis.colors,
      mood := analysis.mood,
      personality := analysis.personality,
      price := data.price,
      status := Draft,
      imagePath := processed.imagePath,
      thumbnailPath := processed.thumbnailPath,
      originalWidth := processed.originalWidth,
      originalHeight := processed.originalHeight,
      artistNotes := data.artistNotes,
      createdAt := now,
      updatedAt := now)
  }

  /** A record that has not been edited since it was made. */
  predicate FreshDraft(a: Artwork) {
    a.status == Draft && a.createdAt == a.updatedAt
  }

  /** Every record the handler builds is a fresh draft; a later edit keeps
      its id, creation time and image paths and leaves it a draft unless
      the edit sets a status. */
  lemma NewArtworkLifecycle(id: string, data: ArtworkCreate, processed: Image.ProcessedImage,
                            analysis: AIAnalysisResult, now: int, u: ArtworkUpdate, later: int)
    ensures FreshDraft(NewArtwork(id, data, processed, analysis, now))
    ensures var a := NewArtwork(id, data, processed, analysis, now);
      var m := Merge(a, u, later);
      && m.id == id && m.createdAt == now && m.imagePath == processed.imagePath
      && (u.status.None? ==> m.status == Draft)
      && (FreshDraft(m) <==> later == now && m.status == Draft)
  {
  }

  /** What one upload produces: the response and, on success, the record
      that was appended to the store. */
  datatype UploadOutcome = UploadOutcome(response: Response<Artwork>, created: Option<Artwork>)

  /** The result of `POST /api/upload`, given the rate-limit verdict, the
      form (`Err` carries the message of a body that is not multipart
      form data), the ids the handler generates for the image files and
      for the record, what decoding the image gives (`Err` carries the
      message `sharp` throws), what the analysis gives (`Err` carries the
      message `analyzeArtwork` throws) and the clock. Every throw after
      the checks is an `Error`, answered with 500. */
  function UploadResponse(allowed: bool, form: Result<UploadForm, string>, parsePrice: string -> Option<real>,
                          imageId: string, recordId: string, decoded: Result<Image.Metadata, string>,
                          analysis: Result<AIAnalysisResult, string>, now: int, nodeEnv: Option<string>): (r: UploadOutcome)
    ensures !allowed ==> r.response == HandleApiError(ThrownApiError(RateLimitError()), nodeEnv)
    ensures !allowed ==> r.response.status == 429 && r.created.None?
    ensures allowed && form.Err? ==>
      r.response == HandleApiError(ThrownError(form.error), nodeEnv) && r.response.status == 500 && r.created.None?
    ensures allowed && form.Ok? && UploadChecks(form.value, parsePrice).Err? ==>
      r.response.status == 400 && r.created.None? &&
      r.response.body.error == Some(UploadChecks(form.value, parsePrice).error.message)
    ensures allowed && form.Ok? && UploadChecks(form.value, parsePrice).Ok? && decoded.Err? ==>
      r.response == HandleApiError(ThrownError(decoded.error), nodeEnv) && r.response.status == 500 && r.created.None?
    ensures allowed && form.Ok? && UploadChecks(form.value, parsePrice).Ok? && decoded.Ok? && analysis.Err? ==>
      r.response == HandleApiError(ThrownError(analysis.error), nodeEnv) && r.response.status == 500 && r.created.None?
    ensures r.created.Some? <==>
      allowed && form.Ok? && UploadChecks(form.value, parsePrice).Ok? && decoded.Ok? && analysis.Ok?
    ensures r.created.Some? ==>
      && r.response == OkResponse(201, r.created.value)
      && r.created.value == NewArtwork(recordId, UploadChecks(form.value, parsePrice).value,
           Image.ProcessImage(imageId, form.value.file.value.name, decoded.value.width, decoded.value.height).result,
           analysis.value, now)
  {
    if !allowed then UploadOutcome(HandleApiError(ThrownApiError(RateLimitError()), nodeEnv), None)
    else if form.Err? then UploadOutcome(HandleApiError(ThrownError(form.error), nodeEnv), None)
    else match UploadChecks(form.value, parsePrice)
      case Err(e) => UploadOutcome(HandleApiError(ThrownApiError(e), nodeEnv), None)
      case Ok(data) =>
        if decoded.Err? then UploadOutcome(HandleApiError(ThrownError(decoded.error), nodeEnv), None)
        else if analysis.Err? then UploadOutcome(HandleApiError(ThrownError(analysis.error), nodeEnv), None)
        else
          var processed := Image.ProcessImage(imageId, form.value.file.value.name, decoded.value.width, decoded.value.height).result;
          var artwork := NewArtwork(recordId, data, processed, analysis.value, now);
          UploadOutcome(OkResponse(201, artwork), Some(artwork))
  }

  /** A missing file is reported before anything about the other fields,
      and a rejected file before the schema is consulted. */
  lemma FileGuardsComeFirst(form: UploadForm, parsePrice: string -> Option<real>)
    ensures form.file.None? ==> UploadChecks(form, parsePrice) == UploadChecks(form.(title := None, price := None), parsePrice)
    ensures form.file.Some? && !ValidateImageFile(form.file.value).valid ==>
      UploadChecks(form, parsePrice) == UploadChecks(UploadForm(form.file, None, None, None), parsePrice)
  {
  }

  const UploadLimit: int := 10

  /** `POST /api/upload` against the process's limiter and store. The
      limiter reads the clock at `requestTime`; the record's timestamps
      are the later reading `now`. */
  method UploadPost(limiter: RateLimiter, store: ArtworkStore, forwardedFor: Option<string>,
                    form: Result<UploadForm, string>, parsePrice: string -> Option<real>,
                    imageId: string, recordId: string, decoded: Result<Image.Metadata, string>,
                    analysis: Result<AIAnalysisResult, string>, requestTime: int, now: int, nodeEnv: Option<string>)
    returns (r: Response<Artwork>)
    modifies limiter, store
    ensures var d := Check(old(limiter.store), "upload:" + ClientIdentifier(forwardedFor), UploadLimit, WindowMs, requestTime);
      var outcome := UploadResponse(d.allowed, form, parsePrice, imageId, recordId, decoded, analysis, now, nodeEnv);
      && limiter.store == d.store
      && r == outcome.response
      && store.artworks == old(store.artworks) + (if outcome.created.Some? then [outcome.created.value] else [])
  {
    var allowed := limiter.CheckRateLimit("upload:" + ClientIdentifier(forwardedFor), requestTime, UploadLimit, WindowMs);
    if !allowed {
      return HandleApiError(ThrownApiError(RateLimitError()), nodeEnv);
    }
    if form.Err? {
      return HandleApiError(ThrownError(form.error), nodeEnv);
    }
    var checked := UploadChecks(form.value, parsePrice);
    if checked.Err? {
      return HandleApiError(ThrownApiError(checked.error), nodeEnv);
    }
    if decoded.Err? {
      return HandleApiError(ThrownError(decoded.error), nodeEnv);
    }
    var processed := Image.ProcessImage(imageId, form.value.file.value.name, decoded.value.width, decoded.value.height).result;
    if analysis.Err? {
      return HandleApiError(ThrownError(analysis.error), nodeEnv);
    }
    var artwork := NewArtwork(recordId, checked.value, processed, analysis.value, now);
    var _ := store.CreateArtwork(artwork);
    r := OkResponse(201, artwork);
  }
}
