/**
 * The `/file/{type}/{id}` renderer: it maps the request type to a key prefix, looks the
 * stored file up, and answers with the bytes and a content type guessed from them.
 *
 * The image-format sniffing of the `image` crate is the parameter `guessFormat`.
 */
module GetFile {
  import opened Wrappers
  import opened Text
  import opened Store

  datatype FileRequestType = User | Image | Document | Video | VideoThumb | Unknown

  /** `From<String> for FileRequestType`: any other text is `Unknown` */
  function ParseRequestType(s: string): FileRequestType {
    match s
    case "user" => User
    case "image" => Image
    case "document" => Document
    case "video" => Video
    case "video_thumb" => VideoThumb
    case _ => Unknown
  }

  /** The path segment naming a known request type */
  function RequestTypeName(t: FileRequestType): string
    requires t != Unknown
  {
    match t
    case User => "user"
    case Image => "image"
    case Document => "document"
    case Video => "video"
    case VideoThumb => "video_thumb"
  }

  /** Every known request type is parsed back from its name, and only from it */
  lemma ParseRequestTypeExact(s: string, t: FileRequestType)
    requires t != Unknown
    ensures ParseRequestType(s) == t <==> s == RequestTypeName(t)
  {
  }

  /** The key segment: user pictures and video thumbnails have their own, all else is `chat` */
  function KeySegment(t: FileRequestType): string {
    match t
    case User => "user"
    case VideoThumb => "video_thumb"
    case _ => "chat"
  }

  /** `file:{segment}:{id}`, the key looked up */
  function FileKey(t: FileRequestType, fileId: string): (key: string)
    ensures t == User ==> key == "file:user:" + fileId
    ensures t == VideoThumb ==> key == "file:video_thumb:" + fileId
    ensures !(t == User || t == VideoThumb) ==> key == "file:chat:" + fileId
  {
    "file:" + KeySegment(t) + ":" + fileId
  }

  /** The formats `image::guess_format` can report; the last stands for the rest */
  datatype ImageFormat =
    | Avif | Jpeg | Png | Gif | WebP | Tiff | Tga | Dds | Bmp | Ico | Hdr | OpenExr
    | OtherFormat

  /** The MIME type sent for a sniffed format, if it has one */
  function MimeOf(f: ImageFormat): (mime: Option<string>)
    ensures mime.None? <==> f == OtherFormat
    ensures mime.Some? ==> StartsWith(mime.value, "image/")
  {
    match f
    case Avif => Some("image/avif")
    case Jpeg => Some("image/jpeg")
    case Png => Some("image/png")
    case Gif => Some("image/gif")
    case WebP => Some("image/webp")
    case Tiff => Some("image/tiff")
    case Tga => Some("image/x-tga")
    case Dds => Some("image/vnd-ms.dds")
    case Bmp => Some("image/bmp")
    case Ico => Some("image/x-icon")
    case Hdr => Some("image/vnd.radiance")
    case OpenExr => Some("image/x-exr")
    case OtherFormat => None
  }

  /** Different formats are sent with different MIME types */
  lemma MimeOfInjective(f: ImageFormat, g: ImageFormat)
    requires MimeOf(f).Some? && MimeOf(f) == MimeOf(g)
    ensures f == g
  {
  }

  const OctetStream: string := "application/octet-stream"

  predicate IsImageRequest(t: FileRequestType) {
    t == User || t == Image || t == VideoThumb
  }

  /**
   * The content type of an answer: for image requests the MIME type of the sniffed format,
   * falling back to `application/octet-stream`; for the others always the fallback.
   */
  function ContentType(t: FileRequestType, file: Bytes, guessFormat: Bytes -> Option<ImageFormat>): (ct: string)
    ensures !IsImageRequest(t) ==> ct == OctetStream
    ensures IsImageRequest(t) && guessFormat(file).Some? && MimeOf(guessFormat(file).value).Some? ==>
      ct == MimeOf(guessFormat(file).value).value
    ensures ct == OctetStream <==>
      !IsImageRequest(t) || guessFormat(file).None? || guessFormat(file).value == OtherFormat
  {
    match t
    case User | Image | VideoThumb =>
      (match guessFormat(file)
       case Some(format) => MimeOf(format)
       case None => None).GetOr(OctetStream)
    case Document => OctetStream
    case Video => OctetStream
    case Unknown => OctetStream
  }

  /** A response body: a text or the bytes of a file */
  datatype Body = TextBody(text: string) | FileBody(bytes: Bytes)

  /** An HTTP answer, or warp's not-found rejection */
  datatype Reply =
    | Response(status: int, contentType: Option<string>, body: Body)
    | NotFound

  /**
   * `get_file` over a snapshot of the store. An unknown request type is answered 404 with a
   * message; a missing file is rejected as not found; otherwise the stored bytes are sent
   * with status 200 and the guessed content type.
   */
  function GetFile(entries: map<string, Bytes>, requestType: string, fileId: string,
                   guessFormat: Bytes -> Option<ImageFormat>): (r: Reply)
    ensures ParseRequestType(requestType) == Unknown ==> r == Response(404, None, TextBody("Unknown file request type"))
    ensures ParseRequestType(requestType) != Unknown ==>
      (r.NotFound? <==> FileKey(ParseRequestType(requestType), fileId) !in entries)
    ensures ParseRequestType(requestType) != Unknown && r.Response? ==>
      var t := ParseRequestType(requestType);
      && r.status == 200
      && r.body == FileBody(entries[FileKey(t, fileId)])
      && r.contentType == Some(ContentType(t, entries[FileKey(t, fileId)], guessFormat))
  {
    var t := ParseRequestType(requestType);
    if t == Unknown then Response(404, None, TextBody("Unknown file request type"))
    else
      var key := FileKey(t, fileId);
      if key !in entries then NotFound
      else
        var file := entries[key];
        Response(200, Some(ContentType(t, file, guessFormat)), FileBody(file))
  }
}
