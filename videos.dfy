/**
 * The pure parts of handlerUploadVideo (src/api/videos.ts): its validation gate,
 * the scratch-file name and storage key it builds, and the sequence of collaborator
 * calls its try block makes for each combination of step outcomes.
 */
module Videos {
  import opened Wrappers
  import opened Assets
  import opened Uploads

  /** 10 GiB (the source's comment says 1GB; the expression is 10 * 1024^3). */
  const MaxUploadSize: nat := 10 * 1024 * 1024 * 1024

  const Mp4: string := "video/mp4"

  /** The video handler's checks: exactly "video/mp4", at most 10 GiB, owned by the caller. */
  function ValidateVideo(videoId: string, file: Option<FilePart>, userID: string, db: map<string, Video>)
    : (r: Result<Video, ApiError>)
    ensures videoId == "" ==> r == Err(BadRequest("Invalid video ID"))
    ensures videoId != "" && file.None? ==> r == Err(BadRequest("Invalid file"))
    ensures videoId != "" && file.Some? && file.value.mediaType == "" ==>
      r == Err(BadRequest("Missing Content-Type for thumbnail"))
    ensures r.Ok? <==>
      && videoId != "" && file.Some? && file.value.mediaType == Mp4
      && file.value.size <= 10_737_418_240
      && videoId in db && db[videoId].userID == userID
    ensures r.Ok? ==> r.value == db[videoId]
    ensures videoId != "" && file.Some? && file.value.mediaType != "" && file.value.mediaType != Mp4 ==>
      r == Err(BadRequest("Invalid Content-Type for video"))
    ensures videoId != "" && file.Some? && file.value.mediaType == Mp4 && file.value.size > MaxUploadSize ==>
      r == Err(BadRequest("File too large"))
    ensures r.Err? && r.error.Forbidden? <==>
      && videoId != "" && file.Some? && file.value.mediaType == Mp4
      && file.value.size <= MaxUploadSize
      && !(videoId in db && db[videoId].userID == userID)
  {
    Gate(videoId, file, userID, db, {Mp4}, MaxUploadSize, "Invalid Content-Type for video")
  }

  /** The one accepted media type has the subtype mp4. */
  lemma Mp4Extension(mediaType: string)
    requires mediaType == Mp4
    ensures Extension(mediaType) == "mp4"
  {
    SecondFieldOfJoin("video", "mp4", []);
    assert mediaType == "video" + "/" + "mp4" + [];
  }

  /** `${orientation}/${fullFileName}` */
  function StorageKey(orientation: AspectRatio, fullFileName: string): (k: string)
    ensures FirstSlash(k) == Some(|Name(orientation)|)
    ensures k[..|Name(orientation)|] == Name(orientation) && k[|Name(orientation)| + 1..] == fullFileName
  {
    var n := Name(orientation);
    var k := n + "/" + fullFileName;
    assert k[..|n|] == n;
    assert k[|n| + 1..] == fullFileName;
    FirstSlashAt(k, |n|);
    k
  }

  /** A '/' at index i with none before it is the first '/'. */
  lemma {:induction false} FirstSlashAt(s: string, i: nat)
    requires i < |s| && s[i] == '/' && NoSlash(s[..i])
    ensures FirstSlash(s) == Some(i)
  {
    if i > 0 {
      assert s[0] == s[..i][0];
      assert s[1..][..i - 1] == s[..i][1..];
      FirstSlashAt(s[1..], i - 1);
    }
  }

  /** Reads a storage key back into its orientation and file name. */
  function ParseStorageKey(key: string): (r: Option<(AspectRatio, string)>)
    ensures r.Some? ==> StorageKey(r.value.0, r.value.1) == key
  {
    match FirstSlash(key)
    case None => None
    case Some(i) =>
      var prefix, rest := key[..i], key[i + 1..];
      assert key == prefix + "/" + rest;
      if prefix == Name(Landscape) then Some((Landscape, rest))
      else if prefix == Name(Portrait) then Some((Portrait, rest))
      else if prefix == Name(Other) then Some((Other, rest))
      else None
  }

  /** Every storage key parses back to the orientation and file name it was built from. */
  lemma StorageKeyRoundTrip(orientation: AspectRatio, fullFileName: string)
    ensures ParseStorageKey(StorageKey(orientation, fullFileName)) == Some((orientation, fullFileName))
  {
    var n := Name(orientation);
    var key := StorageKey(orientation, fullFileName);
    assert key[|n|] == '/';
    assert key[..|n|] == n;
    var i := FirstSlash(key).value;
    assert i == |n|;
    assert key[i + 1..] == fullFileName;
  }

  /** Distinct orientations or distinct file names never share a storage key. */
  lemma StorageKeyInjective(o1: AspectRatio, f1: string, o2: AspectRatio, f2: string)
    requires StorageKey(o1, f1) == StorageKey(o2, f2)
    ensures o1 == o2 && f1 == f2
  {
    StorageKeyRoundTrip(o1, f1);
    StorageKeyRoundTrip(o2, f2);
  }

  /** The collaborator outcomes of one upload: each external step succeeds or fails. */
  datatype VideoOracle = VideoOracle(
    writeOk: bool,                      // Bun.write of the scratch file
    probe: Result<AspectRatio, string>, // what getVideoAspectRatio returns, or its error
    rewrite: Option<Path>,              // the fast-start file, or None when the rewrite throws
    uploadOk: bool,                     // the object-storage write
    deleteOk: bool)                     // the deletion of the scratch file

  /** The steps of the try block, in source order. */
  datatype Step = WriteStep | ProbeStep | RewriteStep | UploadStep | UpdateStep

  const Pipeline: seq<Step> := [WriteStep, ProbeStep, RewriteStep, UploadStep, UpdateStep]

  /** Whether an event is the call that performs a step. */
  predicate Performs(e: Event, s: Step) {
    match s
    case WriteStep => e.WriteFile?
    case ProbeStep => e.ProbeFile?
    case RewriteStep => e.RewriteFile?
    case UploadStep => e.UploadObject?
    case UpdateStep => e.UpdateRecord?
  }

  /** Whether a step completes without throwing; updateVideo is not modelled as failing. */
  predicate StepSucceeds(o: VideoOracle, s: Step) {
    match s
    case WriteStep => o.writeOk
    case ProbeStep => o.probe.Ok?
    case RewriteStep => o.rewrite.Some?
    case UploadStep => o.uploadOk
    case UpdateStep => true
  }

  /** The fast-start file exists: the write, the probe and the rewrite all completed. */
  predicate Rewritten(o: VideoOracle) {
    o.writeOk && o.probe.Ok? && o.rewrite.Some?
  }

  /** The whole try block completes. */
  predicate Succeeds(o: VideoOracle) {
    Rewritten(o) && o.uploadOk
  }

  /** The storage key once the probe has classified the video. */
  function VideoKey(o: VideoOracle, fullFileName: string): string
    requires o.probe.Ok?
  {
    StorageKey(o.probe.value, fullFileName)
  }

  /** The record as the try block persists it: videoURL set to the storage key. */
  function Published(video: Video, o: VideoOracle, fullFileName: string): (v: Video)
    requires o.probe.Ok?
    ensures v.id == video.id && v.userID == video.userID && v.thumbnailURL == video.thumbnailURL
    ensures v.videoURL.Some?
  {
    video.(videoURL := Some(VideoKey(o, fullFileName)))
  }

  /** The persisted videoURL is a storage key naming the probed orientation and the scratch file's name. */
  lemma PublishedKey(video: Video, o: VideoOracle, fullFileName: string)
    requires o.probe.Ok?
    ensures ParseStorageKey(Published(video, o, fullFileName).videoURL.value) == Some((o.probe.value, fullFileName))
  {
    StorageKeyRoundTrip(o.probe.value, fullFileName);
  }

  /**
   * The collaborator calls the try block makes: write, probe, rewrite, upload,
   * update, each only after the previous one completed.
   */
  function TryEvents(scratch: Path, fullFileName: string, mediaType: string, video: Video, o: VideoOracle)
    : (r: seq<Event>)
    ensures 1 <= |r| <= |Pipeline|
    ensures |r| == |Pipeline| <==> Succeeds(o)
  {
    var write, probe, rewrite := WriteFile(scratch), ProbeFile(scratch), RewriteFile(scratch);
    if !o.writeOk then [write]
    else if o.probe.Err? then [write, probe]
    else if o.rewrite.None? then [write, probe, rewrite]
    else
      var upload := UploadObject(VideoKey(o, fullFileName), o.rewrite.value, mediaType);
      if !o.uploadOk then [write, probe, rewrite, upload]
      else [write, probe, rewrite, upload, UpdateRecord(Published(video, o, fullFileName))]
  }

  /**
   * The try block stops at the first step that fails: every call but the last
   * completed, the last one failed unless all five ran, and all five run exactly
   * when the whole block succeeds. The calls are made on the scratch file, the
   * upload sends the fast-start file under the storage key, and the update
   * persists the record with that key.
   */
  lemma TryEventsStopAtFirstFailure(scratch: Path, fullFileName: string, mediaType: string, video: Video, o: VideoOracle)
    ensures var r := TryEvents(scratch, fullFileName, mediaType, video, o);
      && 1 <= |r| <= |Pipeline|
      && (forall i :: 0 <= i < |r| - 1 ==> StepSucceeds(o, Pipeline[i]))
      && (|r| < |Pipeline| ==> !StepSucceeds(o, Pipeline[|r| - 1]))
      && (|r| == |Pipeline| <==> Succeeds(o))
    ensures var r := TryEvents(scratch, fullFileName, mediaType, video, o);
      && r[0] == WriteFile(scratch)
      && (|r| > 1 ==> r[1] == ProbeFile(scratch))
      && (|r| > 2 ==> r[2] == RewriteFile(scratch))
      && (|r| > 3 ==> Rewritten(o) && r[3] == UploadObject(VideoKey(o, fullFileName), o.rewrite.value, mediaType))
      && (|r| > 4 ==> Rewritten(o) && r[4] == UpdateRecord(Published(video, o, fullFileName)))
  {
  }

  /** The calls the try block makes are the pipeline's steps, strictly in order. */
  lemma TryEventsInPipelineOrder(scratch: Path, fullFileName: string, mediaType: string, video: Video, o: VideoOracle)
    ensures var r := TryEvents(scratch, fullFileName, mediaType, video, o);
      forall i :: 0 <= i < |r| ==> Performs(r[i], Pipeline[i])
  {
    var r := TryEvents(scratch, fullFileName, mediaType, video, o);
    TryEventsStopAtFirstFailure(scratch, fullFileName, mediaType, video, o);
  }

  /**
   * Any diagnostic output from ffprobe fails the probe step, whatever it printed
   * on stdout: the rewrite, the upload and the record update never happen.
   */
  lemma DiagnosticsStopPipeline(scratch: Path, fullFileName: string, mediaType: string, video: Video,
                                o: VideoOracle, out: ProbeOutput)
    requires o.writeOk && o.probe == ProbeDecision(out) && out.stderr != []
    ensures TryEvents(scratch, fullFileName, mediaType, video, o) == [WriteFile(scratch), ProbeFile(scratch)]
    ensures !Succeeds(o)
  {
  }

  /** The local files the try block creates: the scratch file, then the fast-start file. */
  function Created(scratch: Path, o: VideoOracle): (c: set<Path>)
    ensures scratch in c <==> o.writeOk
    ensures Rewritten(o) ==> o.rewrite.value in c
    ensures forall p :: p in c ==> p == scratch || (Rewritten(o) && p == o.rewrite.value)
  {
    (if o.writeOk then {scratch} else {}) + (if Rewritten(o) then {o.rewrite.value} else {})
  }

  /**
   * The local files after the handler returns: what the try block created is
   * added, and only the scratch file is deleted, when its deletion succeeds.
   */
  function FilesAfter(before: set<Path>, scratch: Path, o: VideoOracle): (r: set<Path>)
    ensures r - before <= Created(scratch, o)
    ensures before - r <= {scratch}
  {
    (before + Created(scratch, o)) - (if o.deleteOk then {scratch} else {})
  }

  /**
   * What the handler leaves in the assets directory: the scratch file is gone
   * when its deletion succeeds and stays when it fails; the fast-start file is
   * never deleted; nothing else is removed, and nothing else is added.
   */
  lemma FilesAfterCleanup(before: set<Path>, scratch: Path, o: VideoOracle)
    ensures var r := FilesAfter(before, scratch, o);
      && (o.deleteOk ==> scratch !in r)
      && (o.writeOk && !o.deleteOk ==> scratch in r)
      && (Rewritten(o) && o.rewrite.value != scratch ==> o.rewrite.value in r)
      && (forall p :: p in before && p != scratch ==> p in r)
      && (forall p :: p in r && p !in before ==> p == scratch || (Rewritten(o) && p == o.rewrite.value))
  {
  }

  /**
   * After a fully successful upload whose scratch deletion succeeds, the assets
   * directory holds exactly one new file: the fast-start file, which nothing deletes.
   */
  lemma FastStartFileRemains(before: set<Path>, scratch: Path, o: VideoOracle)
    requires Succeeds(o) && o.deleteOk && o.rewrite.value != scratch
    ensures FilesAfter(before, scratch, o) == (before - {scratch}) + {o.rewrite.value}
  {
  }

  /**
   * The probe's lenient fallback, end to end: with no diagnostics and a missing or
   * zero dimension, the probe step succeeds and the video is stored under other/.
   */
  lemma MissingDimensionStoredUnderOther(fullFileName: string, o: VideoOracle, out: ProbeOutput)
    requires o.probe == ProbeDecision(out) && out.stderr == [] && (Missing(out.width) || Missing(out.height))
    ensures StepSucceeds(o, ProbeStep)
    ensures VideoKey(o, fullFileName) == "other/" + fullFileName
  {
  }

  /**
   * End to end: with ffprobe reporting 1920x1080, 1080x1920 or 1000x999 and no
   * diagnostics, the key lands under landscape/, portrait/ or other/.
   */
  lemma KeyPrefixExamples(fullFileName: string)
    ensures StorageKey(ProbeDecision(ProbeOutput("", Some(1920), Some(1080))).value, fullFileName)
      == "landscape/" + fullFileName
    ensures StorageKey(ProbeDecision(ProbeOutput("", Some(1080), Some(1920))).value, fullFileName)
      == "portrait/" + fullFileName
    ensures StorageKey(ProbeDecision(ProbeOutput("", Some(1000), Some(999))).value, fullFileName)
      == "other/" + fullFileName
  {
    WorkedExamples();
  }
}
