/** The record types of the catalog (src/lib/types.ts). */
module Types {
  import opened Wrappers

  /** The three lifecycle states an artwork may be in. */
  datatype Status = Draft | Published | Archived

  function StatusName(s: Status): string {
    match s
    case Draft => "draft"
    case Published => "published"
    case Archived => "archived"
  }

  /** Recognises the wire spelling of a status (`z.enum([...])` and the
      `includes` test of the listing route). */
  function ParseStatus(s: string): (r: Option<Status>)
    ensures r.Some? <==> s in ["draft", "published", "archived"]
    ensures r.Some? ==> StatusName(r.value) == s
  {
    if s == "draft" then Some(Draft)
    else if s == "published" then Some(Published)
    else if s == "archived" then Some(Archived)
    else None
  }

  lemma StatusRoundTrip(s: Status)
    ensures ParseStatus(StatusName(s)) == Some(s)
  {
  }

  /** The persistent artwork record. Timestamps are clock readings (the
      source stores them as ISO-8601 strings); `price` and `artistNotes`
      are nullable. */
  datatype Artwork = Artwork(
    id: string,
    title: string,
    description: string,
    seoTitle: string,
    seoDescription: string,
    tags: seq<string>,
    colors: seq<string>,
    mood: string,
    personality: string,
    price: Option<real>,
    status: Status,
    imagePath: string,
    thumbnailPath: string,
    originalWidth: int,
    originalHeight: int,
    artistNotes: Option<string>,
    createdAt: int,
    updatedAt: int)

  /** The optional fields accepted when an artwork is created. */
  datatype ArtworkCreate = ArtworkCreate(
    title: Option<string>,
    description: Option<string>,
    artistNotes: Option<string>,
    price: Option<real>,
    status: Option<Status>)

  /** A partial update: `None` means the key is absent. `price` and
      `artistNotes` may also be present with the value `null`, which is
      `Some(None)`. */
  datatype ArtworkUpdate = ArtworkUpdate(
    title: Option<string>,
    description: Option<string>,
    seoTitle: Option<string>,
    seoDescription: Option<string>,
    tags: Option<seq<string>>,
    colors: Option<seq<string>>,
    mood: Option<string>,
    personality: Option<string>,
    price: Option<Option<real>>,
    status: Option<Status>,
    artistNotes: Option<Option<string>>)

  /** The metadata the image-analysis service returns. */
  datatype AIAnalysisResult = AIAnalysisResult(
    title: string,
    description: string,
    seoTitle: string,
    seoDescription: string,
    tags: seq<string>,
    colors: seq<string>,
    mood: string,
    personality: string)

  datatype Role = User | Assistant

  datatype ChatMessage = ChatMessage(role: Role, content: string)

  /** The three export formats. */
  datatype ExportType = Csv | Json | Velo
}
