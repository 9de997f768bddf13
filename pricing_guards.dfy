/**
 * The input checks of the lookup endpoint (GET /api/v1/admin/pricing/lookup)
 * and of the upload endpoint (POST /api/v1/admin/pricing/upload), taken in
 * the order the handlers take them. Each rejection is a 400 Bad Request.
 */
module PricingGuards {
  import opened Wrappers
  import opened GoStrings

  /** The largest accepted upload: 50 MiB. */
  const MaxUploadBytes: int := 50 * 1024 * 1024

  /** The rejections the guards produce, each answered with a message. */
  datatype RequestError = ModelRequired | NoFileUploaded | FileTooLarge | NotJsonFile

  /** The text sent back with each rejection; no two rejections share one. */
  function Message(e: RequestError): (m: string)
    ensures m != ""
  {
    match e
    case ModelRequired => "model parameter is required"
    case NoFileUploaded => "No file uploaded"
    case FileTooLarge => "File too large (max 50MB)"
    case NotJsonFile => "Only JSON files are accepted"
  }

  /** A client can tell the rejections apart by their messages. */
  lemma MessagesDistinct(e1: RequestError, e2: RequestError)
    requires e1 != e2
    ensures Message(e1) != Message(e2)
  {
  }

  /** The multipart header of an uploaded file: its name and size in bytes. */
  datatype FileHeader = FileHeader(filename: string, size: int)

  /**
   * LookupModel's guard: the `model` query parameter, trimmed, must not be
   * empty; the trimmed name is what is looked up.
   */
  function CheckLookup(query: string): (r: Result<string, RequestError>)
    ensures r.Failure? <==> forall i :: 0 <= i < |query| ==> IsSpace(query[i])
    ensures r.Failure? ==> r.error == ModelRequired && Message(r.error) == "model parameter is required"
    ensures r.Success? ==> r.value == TrimSpace(query) && r.value != ""
  {
    var model := TrimSpace(query);
    if model == "" then Failure(ModelRequired) else Success(model)
  }

  /**
   * UploadPricing's guards, in order: a file must be present; it must not
   * exceed 50 MiB; its name, lower-cased, must end in ".json". Only a file
   * passing all three goes on to be read.
   */
  function CheckUpload(file: Option<FileHeader>): (r: Result<FileHeader, RequestError>)
    ensures r.Success? <==> file.Some? && file.value.size <= MaxUploadBytes
                            && HasSuffix(ToLower(file.value.filename), ".json")
    ensures r.Success? ==> r.value == file.value
    ensures file.None? ==> r == Failure(NoFileUploaded)
    ensures file.Some? && file.value.size > MaxUploadBytes ==> r == Failure(FileTooLarge)
    ensures r == Failure(NotJsonFile) <==>
              file.Some? && file.value.size <= MaxUploadBytes
              && !HasSuffix(ToLower(file.value.filename), ".json")
    ensures r.Failure? ==> (Message(r.error) in {"No file uploaded", "File too large (max 50MB)", "Only JSON files are accepted"})
  {
    match file
    case None => Failure(NoFileUploaded)
    case Some(header) =>
      if header.size > MaxUploadBytes then Failure(FileTooLarge)
      else if !HasSuffix(ToLower(header.filename), ".json") then Failure(NotJsonFile)
      else Success(header)
  }

  /**
   * The extension test ignores case: the name's last five characters are
   * '.', then 'j', 's', 'o', 'n' in either case.
   */
  lemma JsonSuffixIgnoresCase(name: string)
    ensures HasSuffix(ToLower(name), ".json") <==>
      && |name| >= 5
      && name[|name| - 5] == '.'
      && name[|name| - 4] in {'j', 'J'}
      && name[|name| - 3] in {'s', 'S'}
      && name[|name| - 2] in {'o', 'O'}
      && name[|name| - 1] in {'n', 'N'}
  {
    var n := |name|;
    if n >= 5 {
      var tail := ToLower(name)[n - 5..];
      assert tail == [LowerChar(name[n - 5]), LowerChar(name[n - 4]), LowerChar(name[n - 3]),
                      LowerChar(name[n - 2]), LowerChar(name[n - 1])];
    }
  }

  /** Lower-casing a file name changes neither whether it is accepted nor why it is rejected. */
  lemma UploadIgnoresNameCase(header: FileHeader)
    ensures var original := CheckUpload(Some(header));
            var lowered := CheckUpload(Some(header.(filename := ToLower(header.filename))));
            original.Success? == lowered.Success? && (original.Failure? ==> original == lowered)
  {
  }

  /**
   * The size limit is inclusive and checked first: a file of exactly 50 MiB
   * named "prices.JSON" is accepted, one byte more is too large whatever its
   * name, and "prices.json.txt" is not JSON.
   */
  lemma UploadExamples()
    ensures CheckUpload(Some(FileHeader("prices.JSON", 52428800))).Success?
    ensures CheckUpload(Some(FileHeader("prices.txt", 52428801))) == Failure(FileTooLarge)
    ensures CheckUpload(Some(FileHeader("prices.json.txt", 10))) == Failure(NotJsonFile)
  {
    JsonSuffixIgnoresCase("prices.JSON");
    JsonSuffixIgnoresCase("prices.json.txt");
  }

  /** Trimming the parameter before sending it again does not change the lookup. */
  lemma LookupIgnoresSurroundingSpace(query: string)
    ensures CheckLookup(TrimSpace(query)) == CheckLookup(query)
  {
    TrimSpaceIdempotent(query);
  }
}
