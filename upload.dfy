/**
 * The image upload route (`POST /api/upload`): the checks run on the posted
 * form entry, in order, and the name and URL under which an accepted image is
 * stored. The uuid, the outcome of reading the request body and the outcome of
 * writing the file are parameters.
 */
module Upload {
  import opened Wrappers

  /** A posted file: its name, its MIME type and its size in bytes. */
  datatype File = File(name: string, mimeType: string, size: nat)

  /** What `formData.get("file")` yields: nothing, a plain text field, or a file. */
  datatype FormEntry = Absent | Text(text: string) | Upload(file: File)

  /** The request as the route sees it: a body that could not be parsed as a form, or the `file` entry. */
  datatype Request = MalformedBody | Form(entry: FormEntry)

  datatype Response = Failure(status: int, error: string) | Success(imageUrl: string)

  const MaxFileSize: nat := 5 * 1024 * 1024
  const ValidTypes: seq<string> := ["image/jpeg", "image/png", "image/webp", "image/jpg"]

  const NoFileMessage := "No file uploaded"
  const InvalidTypeMessage := "Invalid file type. Only JPEG, PNG, and WebP images are allowed."
  const TooLargeMessage := "File size exceeds 5MB limit."
  const UploadFailedMessage := "Failed to upload file"

  /** Reference definition: a file the route stores. */
  predicate Acceptable(f: File)
  {
    f.mimeType in ValidTypes && f.size <= MaxFileSize
  }

  /**
   * The guard chain, first failure wins: a missing (or empty-text) entry, then a
   * type outside the whitelist (a text entry has no type), then a size above 5 MiB.
   */
  function CheckEntry(entry: FormEntry): (r: Result<File, string>)
    ensures r.Ok? <==> entry.Upload? && Acceptable(entry.file)
    ensures r.Ok? ==> r.value == entry.file
    ensures entry.Absent? || entry == Text("") ==> r == Err(NoFileMessage)
    ensures entry.Text? && entry.text != "" ==> r == Err(InvalidTypeMessage)
    ensures entry.Upload? && entry.file.mimeType !in ValidTypes ==> r == Err(InvalidTypeMessage)
    ensures entry.Upload? && entry.file.mimeType in ValidTypes && entry.file.size > MaxFileSize ==> r == Err(TooLargeMessage)
  {
    match entry
    case Absent => Err(NoFileMessage)
    case Text(text) => if text == "" then Err(NoFileMessage) else Err(InvalidTypeMessage)
    case Upload(file) =>
      if file.mimeType !in ValidTypes then Err(InvalidTypeMessage)
      else if file.size > MaxFileSize then Err(TooLargeMessage)
      else Ok(file)
  }

  /** JavaScript's `\s`: the ASCII spaces and controls, no-break space and the Unicode space separators. */
  predicate IsWhitespace(c: char)
  {
    var n := c as int;
    || 0x09 <= n <= 0x0D || n == 0x20 || n == 0xA0 || n == 0x1680
    || 0x2000 <= n <= 0x200A || n == 0x2028 || n == 0x2029 || n == 0x202F
    || n == 0x205F || n == 0x3000 || n == 0xFEFF
  }

  /** `name.replace(/\s/g, "_")`: every whitespace character becomes `_`, every other character stays. */
  function Sanitize(name: string): (r: string)
    ensures |r| == |name|
    ensures forall i :: 0 <= i < |name| ==> r[i] == if IsWhitespace(name[i]) then '_' else name[i]
    ensures forall i :: 0 <= i < |r| ==> !IsWhitespace(r[i])
  {
    if name == [] then []
    else [if IsWhitespace(name[0]) then '_' else name[0]] + Sanitize(name[1..])
  }

  /** Sanitizing an already sanitized name changes nothing. */
  lemma SanitizeIdempotent(name: string)
    ensures Sanitize(Sanitize(name)) == Sanitize(name)
  {
    var once := Sanitize(name);
    assert forall i :: 0 <= i < |once| ==> Sanitize(once)[i] == once[i];
  }

  /** The stored file name: the uuid, a dash, then the sanitized original name. */
  function StoredName(uuid: string, name: string): (r: string)
    ensures |r| == |uuid| + 1 + |name|
    ensures r[..|uuid|] == uuid && r[|uuid|] == '-'
    ensures r[|uuid| + 1..] == Sanitize(name)
  {
    uuid + "-" + Sanitize(name)
  }

  const UploadsPrefix := "/uploads/"

  /** The public URL of a stored file. */
  function ImageUrl(fileName: string): (r: string)
    ensures |r| == |UploadsPrefix| + |fileName|
    ensures r[..|UploadsPrefix|] == UploadsPrefix && r[|UploadsPrefix|..] == fileName
  {
    UploadsPrefix + fileName
  }

  /**
   * `POST`. `uuid` is the value `uuidv4()` returned; `stored` says whether
   * reading the file's bytes and writing them under public/uploads succeeded.
   * A malformed body or a failed write is the catch-all 500; every rejected
   * entry is a 400 with the first failing check's message; an accepted and
   * stored file yields its URL.
   */
  function Post(request: Request, uuid: string, stored: bool): (r: Response)
    ensures r.Success? <==> request.Form? && request.entry.Upload? && Acceptable(request.entry.file) && stored
    ensures r.Success? ==> r.imageUrl == ImageUrl(StoredName(uuid, request.entry.file.name))
    ensures r.Failure? && r.status == 500 <==> request.MalformedBody? || (CheckEntry(request.entry).Ok? && !stored)
    ensures r.Failure? && r.status == 400 <==> request.Form? && CheckEntry(request.entry).Err?
    ensures r.Failure? ==> r.status == 400 || r.status == 500
    ensures request.Form? && CheckEntry(request.entry).Err? ==> r.error == CheckEntry(request.entry).error
    ensures r.Failure? && r.status == 500 ==> r.error == UploadFailedMessage
  {
    match request
    case MalformedBody => Failure(500, UploadFailedMessage)
    case Form(entry) =>
      match CheckEntry(entry)
      case Err(message) => Failure(400, message)
      case Ok(file) =>
        if stored then Success(ImageUrl(StoredName(uuid, file.name)))
        else Failure(500, UploadFailedMessage)
  }

  /** A missing file is reported before anything about type or size is looked at. */
  lemma MissingFileFirst(uuid: string, stored: bool)
    ensures Post(Form(Absent), uuid, stored) == Failure(400, NoFileMessage)
  {
  }

  /** A wrong type is reported even when the file is also too large. */
  lemma TypeCheckedBeforeSize(f: File, uuid: string, stored: bool)
    requires f.mimeType !in ValidTypes
    ensures Post(Form(Upload(f)), uuid, stored) == Failure(400, InvalidTypeMessage)
  {
  }

  /** Exactly 5 MiB is accepted; one byte more is refused. */
  lemma SizeBoundary(name: string, mimeType: string, uuid: string)
    requires mimeType in ValidTypes
    ensures Post(Form(Upload(File(name, mimeType, 5242880))), uuid, true).Success?
    ensures Post(Form(Upload(File(name, mimeType, 5242881))), uuid, true) == Failure(400, TooLargeMessage)
  {
  }

  predicate NoWhitespace(s: string)
  {
    forall i :: 0 <= i < |s| ==> !IsWhitespace(s[i])
  }

  lemma ConcatNoWhitespace(a: string, b: string)
    requires NoWhitespace(a) && NoWhitespace(b)
    ensures NoWhitespace(a + b)
  {
    forall i | 0 <= i < |a + b| ensures !IsWhitespace((a + b)[i]) {
      if i >= |a| {
        assert (a + b)[i] == b[i - |a|];
      }
    }
  }

  /** A uuid without whitespace (as `uuidv4()` produces) gives a URL without any whitespace. */
  lemma UrlHasNoWhitespace(uuid: string, name: string)
    requires NoWhitespace(uuid)
    ensures NoWhitespace(ImageUrl(StoredName(uuid, name)))
  {
    assert NoWhitespace("-") && NoWhitespace(UploadsPrefix);
    ConcatNoWhitespace(uuid, "-");
    ConcatNoWhitespace(uuid + "-", Sanitize(name));
    ConcatNoWhitespace(UploadsPrefix, uuid + "-" + Sanitize(name));
  }
}
