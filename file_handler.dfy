/** Uploaded files: `File.size` and the content-type check of `Image`. */
module FileHandler {
  import opened Wire

  datatype File = File(fileName: string, contentType: string, file: ByteString)

  /** `File.size`: the number of bytes in the file. */
  function Size(f: File): nat {
    |f.file|
  }

  const ImagePrefix: string := "image/"

  /** `str.startswith`, an exact, case-sensitive comparison of the first
      characters. */
  predicate StartsWith(s: string, prefix: string) {
    |prefix| <= |s| && s[..|prefix|] == prefix
  }

  function NotAnImageDetail(contentType: string): string {
    contentType + " is not a valid image 'content_type'"
  }

  /** `Image.validate_content_type`: the content type unchanged when it
      starts with `image/`, otherwise an APIException with status 415 whose
      detail begins with the rejected content type. */
  function ValidateContentType(contentType: string): (r: Result<string>)
    ensures r.Ok? <==> exists subtype :: contentType == ImagePrefix + subtype
    ensures r.Ok? ==> r.value == contentType
    ensures r.Err? ==>
      r.error.APIException? && r.error.statusCode == HTTP_415_UNSUPPORTED_MEDIA_TYPE &&
      StartsWith(r.error.detail, contentType)
  {
    if StartsWith(contentType, ImagePrefix) then
      assert contentType == ImagePrefix + contentType[|ImagePrefix|..];
      Ok(contentType)
    else
      assert forall subtype :: contentType != ImagePrefix + subtype by {
        forall subtype ensures contentType != ImagePrefix + subtype {
          assert StartsWith(ImagePrefix + subtype, ImagePrefix);
        }
      }
      Err(APIException(NotAnImageDetail(contentType), HTTP_415_UNSUPPORTED_MEDIA_TYPE))
  }

  /** The test is on the exact bytes: a bare `image` or an upper-case type is
      refused, and `image/` with an empty subtype is accepted. */
  lemma ValidateContentTypeExamples()
    ensures ValidateContentType("image/png") == Ok("image/png")
    ensures ValidateContentType("image/") == Ok("image/")
    ensures ValidateContentType("image").Err?
    ensures ValidateContentType("IMAGE/png").Err?
    ensures ValidateContentType("text/image/png").Err?
  {
    assert "image/png" == ImagePrefix + "png";
    assert "image/" == ImagePrefix + "";
    assert "IMAGE/png"[..6][0] != ImagePrefix[0];
    assert "text/image/png"[..6][0] != ImagePrefix[0];
  }

  /** Building an `Image` runs the content-type validator on its field. */
  function NewImage(fileName: string, contentType: string, file: ByteString): (r: Result<File>)
    ensures r.Ok? <==> ValidateContentType(contentType).Ok?
    ensures r.Ok? ==> StartsWith(r.value.contentType, ImagePrefix)
    ensures r.Ok? ==> Size(r.value) == |file| && r.value.contentType == contentType
    ensures r.Err? ==> r == Err(ValidateContentType(contentType).error)
  {
    var ct :- ValidateContentType(contentType);
    Ok(File(fileName, ct, file))
  }
}
