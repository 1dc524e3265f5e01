/** The multer upload middleware: the MIME-type filter and the size limit,
    and how the error handler reports their rejections. */
module Upload {
  import opened Base
  import opened ErrorHandler

  const AllowedMimeTypes: seq<string> :=
    ["image/jpeg", "image/png", "image/gif", "image/webp", "video/mp4", "video/webm", "video/quicktime"]

  /** 25 MiB. */
  const MaxFileSize: nat := 25 * 1024 * 1024

  const InvalidFileType: string := "Invalid file type. Only images and videos are allowed."

  /** `fileFilter`: the callback's outcome, `Ok(true)` for `cb(null, true)`,
      the error otherwise. Only the MIME type decides. */
  function FileFilter(mimetype: string): (r: Result<bool, string>)
    ensures r.Ok? <==> mimetype in AllowedMimeTypes
    ensures r.Ok? ==> r.value
    ensures r.Err? ==> r.error == InvalidFileType
  {
    if mimetype in AllowedMimeTypes then Ok(true) else Err(InvalidFileType)
  }

  /** Every allowed type is an image or a video type. */
  lemma AllowedAreMedia(m: string)
    requires FileFilter(m).Ok?
    ensures "image/" <= m || "video/" <= m
  {
  }

  lemma FilterExamples()
    ensures FileFilter("image/png").Ok? && FileFilter("video/quicktime").Ok?
    ensures FileFilter("image/svg+xml").Err? && FileFilter("application/pdf").Err? && FileFilter("IMAGE/PNG").Err?
  {
    assert AllowedMimeTypes[1] == "image/png";
    assert AllowedMimeTypes[6] == "video/quicktime";
  }

  /** What a rejected upload reaches the error handler as: the filter's plain
      `Error`, or multer's own `LIMIT_FILE_SIZE` error for an oversized file. */
  function Rejection(mimetype: string, size: nat): (r: Option<AppError>)
    ensures r.None? <==> FileFilter(mimetype).Ok? && size <= MaxFileSize
  {
    if FileFilter(mimetype).Err? then Some(AppError("Error", None, [], [], false, None, InvalidFileType))
    else if size > MaxFileSize then Some(AppError("MulterError", None, [], [], true, None, "File too large"))
    else None
  }

  /** The filter's error is not a `MulterError`, so a wrong file type is reported
      as a 500; only the size limit gives a 400. */
  lemma RejectionStatus(mimetype: string, size: nat)
    requires Rejection(mimetype, size).Some?
    ensures FileFilter(mimetype).Err? ==>
              HandleError(Rejection(mimetype, size).value) == Response(500, InvalidFileType, None)
    ensures FileFilter(mimetype).Ok? ==>
              HandleError(Rejection(mimetype, size).value) == Response(400, "File too large", None)
  {
  }
}
