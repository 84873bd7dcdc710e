/**
 * What the two upload handlers (src/api/videos.ts, src/api/thumbnails.ts) share:
 * the video record, the errors they raise, the validation gate they both run
 * before touching anything, and the file-name helpers they both use.
 */
module Uploads {
  import opened Wrappers

  type Path = string

  /** The stored video record, reduced to the fields the handlers read or write. */
  datatype Video = Video(id: string, userID: string, thumbnailURL: Option<string>, videoURL: Option<string>)

  /** The multipart form's file field: its declared media type and its byte length. */
  datatype FilePart = FilePart(mediaType: string, size: nat)

  /** The error classes the handlers throw, each with its message. */
  datatype ApiError =
    | BadRequest(message: string)
    | Forbidden(message: string)
    | Internal(message: string)

  /** A call the handlers make to a collaborator, in the order they make it. */
  datatype Event =
    | WriteFile(path: Path)
    | ProbeFile(path: Path)
    | RewriteFile(path: Path)
    | UploadObject(key: string, source: Path, contentType: string)
    | UpdateRecord(video: Video)
    | DeleteFile(path: Path)

  const ForbiddenMessage: string := "User not allowed to upload thumbnail for this video"

  /** Every check before the ownership check passes. */
  predicate RequestAccepted(videoId: string, file: Option<FilePart>, accepted: set<string>, maxSize: nat) {
    && videoId != ""
    && file.Some?
    && file.value.mediaType != ""
    && file.value.mediaType in accepted
    && file.value.size <= maxSize
  }

  /** The record exists and belongs to the caller. */
  predicate OwnedBy(db: map<string, Video>, videoId: string, userID: string) {
    videoId in db && db[videoId].userID == userID
  }

  /**
   * The checks both handlers run, in their order: the video id, the file field,
   * a non-empty media type, an accepted media type, the size limit (inclusive),
   * then the record's existence and owner. `invalidType` is the handler's own
   * message for a media type it does not accept.
   */
  function Gate(videoId: string, file: Option<FilePart>, userID: string, db: map<string, Video>,
                accepted: set<string>, maxSize: nat, invalidType: string): (r: Result<Video, ApiError>)
    ensures videoId == "" ==> r == Err(BadRequest("Invalid video ID"))
    ensures videoId != "" && file.None? ==> r == Err(BadRequest("Invalid file"))
    ensures videoId != "" && file.Some? && file.value.mediaType == "" ==>
      r == Err(BadRequest("Missing Content-Type for thumbnail"))
    ensures videoId != "" && file.Some? && file.value.mediaType != "" && file.value.mediaType !in accepted ==>
      r == Err(BadRequest(invalidType))
    ensures (videoId != "" && file.Some? && file.value.mediaType != "" && file.value.mediaType in accepted &&
             file.value.size > maxSize) ==> r == Err(BadRequest("File too large"))
    ensures r.Ok? <==> RequestAccepted(videoId, file, accepted, maxSize) && OwnedBy(db, videoId, userID)
    ensures r.Ok? ==> r.value == db[videoId]
    ensures r == Err(Forbidden(ForbiddenMessage)) <==>
      RequestAccepted(videoId, file, accepted, maxSize) && !OwnedBy(db, videoId, userID)
    ensures r.Err? ==> r.error.BadRequest? || r.error == Forbidden(ForbiddenMessage)
    ensures r.Err? && r.error.BadRequest? <==> !RequestAccepted(videoId, file, accepted, maxSize)
  {
    if videoId == "" then Err(BadRequest("Invalid video ID"))
    else if file.None? then Err(BadRequest("Invalid file"))
    else if file.value.mediaType == "" then Err(BadRequest("Missing Content-Type for thumbnail"))
    else if file.value.mediaType !in accepted then Err(BadRequest(invalidType))
    else if file.value.size > maxSize then Err(BadRequest("File too large"))
    else if !OwnedBy(db, videoId, userID) then Err(Forbidden(ForbiddenMessage))
    else Ok(db[videoId])
  }

  /** No character of s is a '/'. */
  predicate NoSlash(s: string) {
    forall j :: 0 <= j < |s| ==> s[j] != '/'
  }

  /** Index of the first '/' in s, if there is one. */
  function FirstSlash(s: string): (r: Option<nat>)
    ensures r.None? ==> NoSlash(s)
    ensures r.Some? ==> r.value < |s| && s[r.value] == '/' && NoSlash(s[..r.value])
  {
    if s == [] then None
    else if s[0] == '/' then Some(0)
    else
      match FirstSlash(s[1..])
      case None => None
      case Some(i) =>
        assert s[..i + 1] == [s[0]] + s[1..][..i];
        Some(i + 1)
  }

  /** The longest prefix of s without a '/'. */
  function UpToSlash(s: string): (r: string)
    ensures |r| <= |s| && r == s[..|r|] && NoSlash(r)
    ensures |r| == |s| || s[|r|] == '/'
  {
    if s == [] || s[0] == '/' then []
    else [s[0]] + UpToSlash(s[1..])
  }

  /** `s.split("/")[1]`: the text between the first and second '/', absent when there is no '/'. */
  function SecondField(s: string): (r: Option<string>)
    ensures r.None? ==> NoSlash(s)
    ensures r.Some? ==> !NoSlash(s) && NoSlash(r.value)
  {
    match FirstSlash(s)
    case None => None
    case Some(i) => Some(UpToSlash(s[i + 1..]))
  }

  /** A string of the form a "/" b rest, with rest empty or starting a new field, splits to b. */
  lemma SecondFieldOfJoin(a: string, b: string, rest: string)
    requires NoSlash(a) && NoSlash(b) && (rest == [] || rest[0] == '/')
    ensures SecondField(a + "/" + b + rest) == Some(b)
  {
    var s := a + "/" + b + rest;
    assert s[|a|] == '/';
    assert s[..|a|] == a;
    var i := FirstSlash(s).value;
    assert i == |a|;
    assert s[i + 1..] == b + rest;
    var u := UpToSlash(b + rest);
    assert (b + rest)[..|b|] == b;
    assert u == b;
  }

  /**
   * The extension the handlers append: the media subtype, or "undefined" (the text
   * of JavaScript's undefined in a template string) when there is no '/'.
   */
  function Extension(mediaType: string): (r: string)
    ensures NoSlash(r)
    ensures NoSlash(mediaType) ==> r == "undefined"
    ensures !NoSlash(mediaType) ==> |r| < |mediaType|
  {
    match SecondField(mediaType)
    case Some(e) =>
      var i := FirstSlash(mediaType).value;
      assert |e| <= |mediaType[i + 1..]|;
      e
    case None => "undefined"
  }

  /**
   * `${name}.${mediaType.split("/")[1]}`: the random name, a dot, then a slash-free
   * extension; a slash-free name gives a slash-free file name.
   */
  function FullFileName(name: string, mediaType: string): (r: string)
    ensures |r| > |name| && r[..|name|] == name && r[|name|] == '.'
    ensures NoSlash(r[|name| + 1..])
    ensures NoSlash(name) ==> NoSlash(r)
  {
    var r := name + "." + Extension(mediaType);
    assert r[|name| + 1..] == Extension(mediaType);
    r
  }

  /**
   * `path.join("assets", fullFileName)`: where both handlers write the uploaded
   * bytes. For a slash-free name the path is one level below assets/: splitting it
   * at '/' gives exactly the file name.
   */
  function AssetPath(name: string, mediaType: string): (p: Path)
    ensures |p| > 7 && p[..7] == "assets/"
    ensures NoSlash(name) ==> SecondField(p) == Some(FullFileName(name, mediaType))
  {
    var f := FullFileName(name, mediaType);
    var p := "assets/" + f;
    assert p[..|"assets/"|] == "assets/";
    if NoSlash(name) then UnderAssets(f); p else p
  }

  /** A slash-free file name under assets/ splits back to the file name. */
  lemma UnderAssets(f: string)
    requires NoSlash(f)
    ensures SecondField("assets/" + f) == Some(f)
  {
    assert NoSlash("assets");
    SecondFieldOfJoin("assets", f, []);
    assert "assets" + "/" + f + [] == "assets/" + f;
  }

  /**
   * A media type of the form top "/" sub (neither part holding a '/') names the
   * file <name>.<sub> under assets/.
   */
  lemma AssetPathOf(name: string, top: string, sub: string)
    requires NoSlash(top) && NoSlash(sub)
    ensures FullFileName(name, top + "/" + sub) == name + "." + sub
    ensures AssetPath(name, top + "/" + sub) == "assets/" + name + "." + sub
  {
    SecondFieldOfJoin(top, sub, []);
    assert top + "/" + sub + [] == top + "/" + sub;
  }
}
