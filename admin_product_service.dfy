/**
 * The client-side check the admin product service applies to every image file
 * before the product editor accepts it.
 */
module AdminProductService {
  import opened Wrappers

  /**
   * A file picked in the browser: its name, media type (`File.type`), size in
   * bytes, and its contents as base64 text (the bytes themselves are not
   * modelled).
   */
  datatype SelectedFile = SelectedFile(name: string, mediaType: string, size: int, base64: string)

  /** The outcome of `validateImageFile`: a flag and, when invalid, the message shown. */
  datatype Validation = Validation(valid: bool, error: Option<string>)

  /** 5 MiB. */
  const MaxImageSize: int := 5 * 1024 * 1024

  const AllowedTypes: seq<string> := ["image/jpeg", "image/jpg", "image/png", "image/webp"]

  const FormatError: string := "Formato no permitido. Solo JPEG, PNG y WEBP."

  const SizeError: string := "La imagen no debe superar 5MB."

  /**
   * `validateImageFile`: the media type must be on the allow-list, then the size
   * must not exceed 5 MiB; the first failing check decides the message.
   */
  function ValidateImageFile(file: SelectedFile): (v: Validation)
    ensures v.valid <==> file.mediaType in AllowedTypes && file.size <= MaxImageSize
    ensures v.valid <==> v.error == None
    ensures file.mediaType !in AllowedTypes ==> v.error == Some(FormatError)
    ensures file.mediaType in AllowedTypes && file.size > MaxImageSize ==> v.error == Some(SizeError)
  {
    if file.mediaType !in AllowedTypes then Validation(false, Some(FormatError))
    else if file.size > MaxImageSize then Validation(false, Some(SizeError))
    else Validation(true, None)
  }

  /** Files the editor accepts. */
  predicate Acceptable(file: SelectedFile)
  {
    ValidateImageFile(file).valid
  }
}
