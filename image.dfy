/** The naming and format rules of the upload image pipeline
    (src/lib/image.ts): extension normalisation, the output-format and
    media-type table, the stored file names and the resize decision. The
    pixel work itself (resizing, encoding, writing files) is not modelled. */
module Image {
  import opened Wrappers
  import opened Strings

  // ---------------------------------------------------------------------
  // path.extname (POSIX rules)

  /** The last position of `c` in `s`, or -1. */
  function LastIndexOf(s: string, c: char): (r: int)
    ensures -1 <= r < |s|
    ensures r >= 0 ==> s[r] == c
    ensures forall k :: r < k < |s| ==> s[k] != c
  {
    if |s| == 0 then -1
    else if s[|s| - 1] == c then |s| - 1
    else LastIndexOf(s[..|s| - 1], c)
  }

  /** The path with its trailing separators removed. */
  function TrimTrailingSlashes(s: string): (r: string)
    ensures |r| <= |s| && r == s[..|r|]
    ensures r == [] || r[|r| - 1] != '/'
    ensures forall k :: |r| <= k < |s| ==> s[k] == '/'
  {
    if |s| > 0 && s[|s| - 1] == '/' then TrimTrailingSlashes(s[..|s| - 1]) else s
  }

  /** The last path component, ignoring trailing separators. */
  function Basename(path: string): (r: string)
    ensures '/' !in r
    ensures forall k :: 0 <= k < |r| ==> r[k] in path
  {
    var t := TrimTrailingSlashes(path);
    t[LastIndexOf(t, '/') + 1..]
  }

  /** `path.extname`: from the last `.` of the last component to its end;
      empty when the component has no dot, when its only dot-free prefix is
      empty (a leading dot, as in `.bashrc`), or when it is `..`. */
  function Extname(path: string): (r: string)
    ensures r == [] || (r[0] == '.' && '.' !in r[1..] && '/' !in r)
  {
    var b := Basename(path);
    var d := LastIndexOf(b, '.');
    if d <= 0 || b == ".." then "" else b[d..]
  }

  /** The scan from the end stops at the last occurrence. */
  lemma {:induction false} LastIndexOfIs(s: string, c: char, i: int)
    requires 0 <= i < |s| && s[i] == c
    requires forall k :: i < k < |s| ==> s[k] != c
    ensures LastIndexOf(s, c) == i
    decreases |s|
  {
    if i < |s| - 1 {
      LastIndexOfIs(s[..|s| - 1], c, i);
    }
  }

  /** Below a directory prefix, the last component is what follows it. */
  lemma BasenameAfterDir(dir: string, base: string)
    requires dir == [] || dir[|dir| - 1] == '/'
    requires |base| >= 1 && '/' !in base
    ensures Basename(dir + base) == base
  {
    var name := dir + base;
    assert name[|name| - 1] == base[|base| - 1];
    assert TrimTrailingSlashes(name) == name;
    assert forall k :: |dir| <= k < |name| ==> name[k] == base[k - |dir|];
    var r := LastIndexOf(name, '/');
    if |dir| > 0 {
      assert name[|dir| - 1] == '/';
    }
    assert r == |dir| - 1;
    assert name[|dir|..] == base;
  }

  /** A dot followed by characters that are neither dots nor separators. */
  predicate IsExtension(suffix: string) {
    |suffix| >= 1 && suffix[0] == '.' && '.' !in suffix[1..] && '/' !in suffix[1..]
  }

  /** The last dot of `stem + suffix` is the one that starts `suffix`. */
  lemma LastDotOfName(stem: string, suffix: string)
    requires IsExtension(suffix)
    ensures LastIndexOf(stem + suffix, '.') == |stem|
    ensures (stem + suffix)[|stem|..] == suffix
  {
    var base := stem + suffix;
    assert forall k :: |stem| < k < |base| ==> base[k] == suffix[1..][k - |stem| - 1];
    LastIndexOfIs(base, '.', |stem|);
  }

  /** `stem + suffix` with a non-empty suffix is `..` only when the stem is `.`. */
  lemma NotDotDot(stem: string, suffix: string)
    requires |stem| >= 1 && stem != "." && |suffix| >= 1
    ensures stem + suffix != ".."
  {
    var base := stem + suffix;
    if |base| == 2 {
      assert stem == [stem[0]] && base[0] == stem[0];
      assert stem[0] != '.';
      assert ".."[0] == '.';
    }
  }

  /** A component made of a stem and an extension reports that extension. */
  lemma ExtnameOfName(dir: string, stem: string, suffix: string)
    requires dir == [] || dir[|dir| - 1] == '/'
    requires |stem| >= 1 && '/' !in stem && stem != "."
    requires IsExtension(suffix)
    ensures Extname(dir + stem + suffix) == suffix
  {
    var base := stem + suffix;
    assert suffix == [suffix[0]] + suffix[1..];
    assert '/' !in base;
    assert dir + stem + suffix == dir + base;
    BasenameAfterDir(dir, base);
    LastDotOfName(stem, suffix);
    NotDotDot(stem, suffix);
  }

  /** A name without any dot has no extension. */
  lemma ExtnameNoDot(name: string)
    requires '.' !in name
    ensures Extname(name) == ""
  {
    var b := Basename(name);
    assert '.' !in b;
  }

  /** A name whose only dot is its first character (a dot file such as
      `.png`) has no extension. */
  lemma ExtnameDotFile(name: string)
    requires '/' !in name && |name| >= 1 && name[0] == '.' && '.' !in name[1..]
    ensures Extname(name) == ""
  {
    assert name[|name| - 1] != '/';
    assert TrimTrailingSlashes(name) == name;
    assert Basename(name) == name;
    assert forall k :: 0 < k < |name| ==> name[k] == name[1..][k - 1];
    LastIndexOfIs(name, '.', 0);
  }

  // ---------------------------------------------------------------------
  // Extension normalisation and format table

  /** The extensions kept as they are. */
  const SafeExts: seq<string> := [".jpg", ".jpeg", ".png", ".webp", ".gif"]

  /** `path.extname(name).toLowerCase() || '.jpg'`. */
  function NormalizedExt(originalFilename: string): (r: string)
    ensures r != ""
    ensures Extname(originalFilename) == "" ==> r == ".jpg"
    ensures Extname(originalFilename) != "" ==> r == ToLowerAscii(Extname(originalFilename))
  {
    var ext := ToLowerAscii(Extname(originalFilename));
    if ext == "" then ".jpg" else ext
  }

  /** The allow-listed extension: a recognised one is kept, anything else
      becomes `.jpg`. */
  function SafeExt(originalFilename: string): (r: string)
    ensures r in SafeExts
    ensures NormalizedExt(originalFilename) in SafeExts ==> r == NormalizedExt(originalFilename)
    ensures NormalizedExt(originalFilename) !in SafeExts ==> r == ".jpg"
  {
    var ext := NormalizedExt(originalFilename);
    if ext in SafeExts then ext else ".jpg"
  }

  /** Every allow-listed extension is a dot followed by dot-free letters. */
  lemma SafeExtShape(ext: string)
    requires ext in SafeExts
    ensures IsExtension(ext)
  {
    if ext == ".jpg" {
      assert ext[1..] == "jpg";
    } else if ext == ".jpeg" {
      assert ext[1..] == "jpeg";
    } else if ext == ".png" {
      assert ext[1..] == "png";
    } else if ext == ".webp" {
      assert ext[1..] == "webp";
    } else {
      assert ext[1..] == "gif";
    }
  }

  /** An upload named `.png` has no extension, so it is stored as `.jpg`. */
  lemma DotFileIsStoredAsJpeg()
    ensures SafeExt(".png") == ".jpg"
  {
    assert ".png"[1..] == "png";
    ExtnameDotFile(".png");
  }

  datatype OutputFormat = Jpeg | Png | Webp

  /** The media types an upload may be reported with. */
  const MediaTypes: seq<string> := ["image/jpeg", "image/png", "image/webp", "image/gif"]

  /** The output format and media type chosen for an extension: PNG and
      WebP are kept, GIF is converted to PNG, everything else is JPEG. */
  function FormatFor(safeExt: string): (r: (OutputFormat, string))
    ensures r.1 in MediaTypes && r.1 != "image/gif"
    ensures safeExt == ".png" || safeExt == ".gif" ==> r == (Png, "image/png")
    ensures safeExt == ".webp" ==> r == (Webp, "image/webp")
    ensures safeExt != ".png" && safeExt != ".gif" && safeExt != ".webp" ==> r == (Jpeg, "image/jpeg")
  {
    if safeExt == ".png" then (Png, "image/png")
    else if safeExt == ".webp" then (Webp, "image/webp")
    else if safeExt == ".gif" then (Png, "image/png")
    else (Jpeg, "image/jpeg")
  }

  /** The suffix of the written files: GIF input is written as `.png`. */
  function Suffix(safeExt: string): (r: string)
    ensures safeExt == ".gif" ==> r == ".png"
    ensures safeExt != ".gif" ==> r == safeExt
    ensures safeExt in SafeExts ==> r in SafeExts && r != ".gif"
  {
    if safeExt == ".gif" then ".png" else safeExt
  }

  /** The media type a written file's suffix announces. */
  function MediaTypeOfSuffix(suffix: string): string {
    if suffix == ".png" then "image/png"
    else if suffix == ".webp" then "image/webp"
    else "image/jpeg"
  }

  /** The reported media type always matches the suffix of the file names. */
  lemma MediaTypeMatchesSuffix(safeExt: string)
    requires safeExt in SafeExts
    ensures FormatFor(safeExt).1 == MediaTypeOfSuffix(Suffix(safeExt))
  {
  }

  // ---------------------------------------------------------------------
  // File names, resize decision, result record

  const UploadsPrefix: string := "/uploads/"
  const MaxMainSize: int := 2000

  /** `metadata.width || 0`: a missing (or zero) dimension counts as 0. */
  function Dimension(d: Option<nat>): nat {
    d.GetOr(0)
  }

  /** The main image is resized only when one side exceeds 2000 pixels. */
  function ShouldResize(width: Option<nat>, height: Option<nat>): (r: bool)
    ensures r <==> Dimension(width) > MaxMainSize || Dimension(height) > MaxMainSize
    ensures width.None? && height.None? ==> !r
  {
    Dimension(width) > MaxMainSize || Dimension(height) > MaxMainSize
  }

  /** The dimensions `sharp(...).metadata()` reports; either may be missing. */
  datatype Metadata = Metadata(width: Option<nat>, height: Option<nat>)

  /** `ProcessedImage`, without the base64 preview. */
  datatype ProcessedImage = ProcessedImage(
    imagePath: string,
    thumbnailPath: string,
    originalWidth: nat,
    originalHeight: nat,
    mediaType: string)

  /** What `processImage` writes and returns for an upload named
      `originalFilename` given the fresh id `id` and the image's
      dimensions as the metadata reports them. */
  datatype ImagePlan = ImagePlan(format: OutputFormat, resizeMain: bool, result: ProcessedImage)

  function ProcessImage(id: string, originalFilename: string, width: Option<nat>, height: Option<nat>): (p: ImagePlan)
    ensures var ext := SafeExt(originalFilename);
      && p.result.imagePath == UploadsPrefix + id + Suffix(ext)
      && p.result.thumbnailPath == UploadsPrefix + id + "_thumb" + Suffix(ext)
      && p.result.mediaType == MediaTypeOfSuffix(Suffix(ext))
      && p.format == FormatFor(ext).0
    ensures p.result.mediaType in MediaTypes
    ensures p.result.originalWidth == Dimension(width) && p.result.originalHeight == Dimension(height)
    ensures p.resizeMain <==> p.result.originalWidth > MaxMainSize || p.result.originalHeight > MaxMainSize
  {
    var ext := SafeExt(originalFilename);
    var suffix := Suffix(ext);
    var (format, mediaType) := FormatFor(ext);
    MediaTypeMatchesSuffix(ext);
    ImagePlan(format, ShouldResize(width, height),
      ProcessedImage(UploadsPrefix + id + suffix, UploadsPrefix + id + "_thumb" + suffix,
                     Dimension(width), Dimension(height), mediaType))
  }

  /** Under the uploads directory, a dot-free id followed by an
      allow-listed suffix reports that suffix as its extension. */
  lemma UploadPathExtension(id: string, suffix: string)
    requires |id| >= 1 && '.' !in id && '/' !in id
    requires suffix in SafeExts
    ensures Extname(UploadsPrefix + id + suffix) == suffix
  {
    SafeExtShape(suffix);
    assert id != "." by {
      assert id[0] != '.';
    }
    assert UploadsPrefix[|UploadsPrefix| - 1] == '/';
    ExtnameOfName(UploadsPrefix, id, suffix);
  }

  /** For an id without dots or separators (a UUID), the extension of the
      stored main path is the suffix that was chosen, and it lies in the
      allow-list. */
  lemma StoredPathExtension(id: string, originalFilename: string, width: Option<nat>, height: Option<nat>)
    requires |id| >= 1 && '.' !in id && '/' !in id
    ensures var ext := SafeExt(originalFilename);
      Extname(ProcessImage(id, originalFilename, width, height).result.imagePath) == Suffix(ext) &&
      Suffix(ext) in SafeExts
  {
    var ext := SafeExt(originalFilename);
    UploadPathExtension(id, Suffix(ext));
  }
}
