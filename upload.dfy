/** The upload check run before an image is accepted for analysis. */
module Upload {
  import opened Wrappers

  /** The browser's description of a chosen file. */
  datatype File = File(mimeType: string, size: nat)

  datatype UploadOutcome = NoFile | NotAnImage | TooLarge | Accepted(file: File)

  /** 5 MiB. */
  const MaxImageBytes: nat := 5 * 1024 * 1024

  /** The first chosen file, if any: rejected unless its MIME type starts
      with "image/" (checked first), then rejected if larger than 5 MiB. */
  function CheckUpload(file: Option<File>): (r: UploadOutcome)
    ensures r.Accepted? <==> file.Some? && "image/" <= file.value.mimeType && file.value.size <= MaxImageBytes
    ensures r.Accepted? ==> r.file == file.value
    ensures r == NoFile <==> file.None?
    ensures r == NotAnImage <==> file.Some? && !("image/" <= file.value.mimeType)
    ensures r == TooLarge <==> file.Some? && "image/" <= file.value.mimeType && file.value.size > MaxImageBytes
  {
    match file
    case None => NoFile
    case Some(f) =>
      if !StartsWith(f.mimeType, "image/") then NotAnImage
      else if f.size > MaxImageBytes then TooLarge
      else Accepted(f)
  }

  /** `s.startsWith(prefix)`, character by character. */
  function StartsWith(s: string, prefix: string): (b: bool)
    ensures b <==> prefix <= s
  {
    if |prefix| == 0 then true
    else |s| > 0 && s[0] == prefix[0] && StartsWith(s[1..], prefix[1..])
  }

  // ---- properties ----

  /** The size limit is inclusive: exactly 5 MiB passes, one byte more does not. */
  lemma SizeLimitInclusive()
    ensures CheckUpload(Some(File("image/png", 5242880))).Accepted?
    ensures CheckUpload(Some(File("image/png", 5242881))) == TooLarge
  {
  }

  /** The type is checked before the size, and without the slash a type is
      not an image type. */
  lemma TypeCheckedFirst()
    ensures CheckUpload(Some(File("text/plain", 6000000))) == NotAnImage
    ensures CheckUpload(Some(File("image", 10))) == NotAnImage
  {
  }
}
