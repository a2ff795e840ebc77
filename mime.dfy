/** The file extension recorded for an image, from the MIME type imgur
    reports for it. */
module Mime {
  const MIME_EXTENSIONS: map<string, string> :=
    map["image/gif" := "gif", "image/jpeg" := "jpg", "image/png" := "png", "video/mp4" := "gifv"]

  /** `mapMimeTypeToExt`: the table entry, and `gif` for any type not in it. */
  function MimeExt(mimeType: string): (ext: string)
    ensures ext in {"gif", "jpg", "png", "gifv"}
    ensures ext == "jpg" <==> mimeType == "image/jpeg"
    ensures ext == "png" <==> mimeType == "image/png"
    ensures ext == "gifv" <==> mimeType == "video/mp4"
    ensures ext == "gif" <==> mimeType !in {"image/jpeg", "image/png", "video/mp4"}
  {
    if mimeType in MIME_EXTENSIONS then MIME_EXTENSIONS[mimeType] else "gif"
  }
}
