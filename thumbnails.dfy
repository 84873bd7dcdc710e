/**
 * The pure parts of handlerUploadThumbnail (src/api/thumbnails.ts): its
 * validation gate, the file path it builds, and the outcomes of its write.
 */
module Thumbnails {
  import opened Wrappers
  import opened Uploads

  /** 10 MiB. */
  const MaxUploadSize: nat := 10 * 1024 * 1024

  const Jpeg: string := "image/jpeg"
  const Png: string := "image/png"

  /** The thumbnail handler's checks: JPEG or PNG, at most 10 MiB, owned by the caller. */
  function ValidateThumbnail(videoId: string, file: Option<FilePart>, userID: string, db: map<string, Video>)
    : (r: Result<Video, ApiError>)
    ensures videoId == "" ==> r == Err(BadRequest("Invalid video ID"))
    ensures videoId != "" && file.None? ==> r == Err(BadRequest("Invalid file"))
    ensures videoId != "" && file.Some? && file.value.mediaType == "" ==>
      r == Err(BadRequest("Missing Content-Type for thumbnail"))
    ensures r.Ok? <==>
      && videoId != "" && file.Some? && (file.value.mediaType == Jpeg || file.value.mediaType == Png)
      && file.value.size <= 10_485_760
      && videoId in db && db[videoId].userID == userID
    ensures r.Ok? ==> r.value == db[videoId]
    ensures videoId != "" && file.Some? && file.value.mediaType !in {"", Jpeg, Png} ==>
      r == Err(BadRequest("Invalid Content-Type for thumbnail"))
    ensures videoId != "" && file.Some? && file.value.mediaType in {Jpeg, Png} && file.value.size > MaxUploadSize ==>
      r == Err(BadRequest("File too large"))
    ensures r.Err? && r.error.Forbidden? <==>
      && videoId != "" && file.Some? && file.value.mediaType in {Jpeg, Png}
      && file.value.size <= MaxUploadSize
      && !(videoId in db && db[videoId].userID == userID)
  {
    Gate(videoId, file, userID, db, {Jpeg, Png}, MaxUploadSize, "Invalid Content-Type for thumbnail")
  }

  /** The two accepted media types have the subtypes jpeg and png. */
  lemma ThumbnailExtension(mediaType: string)
    requires mediaType == Jpeg || mediaType == Png
    ensures Extension(mediaType) == if mediaType == Jpeg then "jpeg" else "png"
  {
    if mediaType == Jpeg {
      SecondFieldOfJoin("image", "jpeg", []);
      assert mediaType == "image" + "/" + "jpeg" + [];
    } else {
      SecondFieldOfJoin("image", "png", []);
      assert mediaType == "image" + "/" + "png" + [];
    }
  }

  /**
   * What the unawaited Bun.write does: it completes, it throws before returning
   * (the only failure the surrounding try/catch sees), or its promise rejects
   * later, unobserved, leaving no file.
   */
  datatype WriteOutcome = Written | ThrowsNow | FailsLater

  /** The record with thumbnailURL pointing at the local file. */
  function WithThumbnail(video: Video, path: Path): (v: Video)
    ensures v.thumbnailURL == Some(path)
    ensures v.id == video.id && v.userID == video.userID && v.videoURL == video.videoURL
  {
    video.(thumbnailURL := Some(path))
  }
}
