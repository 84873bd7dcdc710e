/**
 * The two upload handlers as operations on the server's state: the local assets
 * directory, the record store, the object store, and the log of collaborator calls.
 */
module Api {
  import opened Wrappers
  import opened Uploads
  import Videos
  import Thumbnails

  const WriteFailed: ApiError := Internal("Error writing file")

  class Server {
    /** The files present in the local assets directory. */
    var files: set<Path>
    /** The record store: video id to record. */
    var db: map<string, Video>
    /** The object store: key to the local file whose bytes were uploaded under it. */
    var store: map<string, Path>
    /** Every call made to a collaborator, oldest first. */
    var log: seq<Event>

    /** Every record is stored under its own id. */
    ghost predicate Valid()
      reads this
    {
      forall id :: id in db ==> db[id].id == id
    }

    constructor (files0: set<Path>, db0: map<string, Video>)
      requires forall id :: id in db0 ==> db0[id].id == id
      ensures Valid()
      ensures files == files0 && db == db0 && store == map[] && log == []
    {
      files, db, store, log := files0, db0, map[], [];
    }

    /**
     * handlerUploadVideo: the validation gate, then the try block (write, probe,
     * rewrite, upload, record update), then deletion of the scratch file on every
     * exit from the try block. Any failure in the try block is reported as
     * "Error writing file".
     */
    method UploadVideo(videoId: string, file: Option<FilePart>, userID: string, name: string, o: Videos.VideoOracle)
      returns (res: Result<Video, ApiError>)
      requires Valid()
      modifies this
      ensures Valid()
      ensures var gate := Videos.ValidateVideo(videoId, file, userID, old(db));
        gate.Err? ==>
          && res == Err(gate.error)
          && files == old(files) && db == old(db) && store == old(store) && log == old(log)
      ensures var gate := Videos.ValidateVideo(videoId, file, userID, old(db));
        gate.Ok? ==>
          var video, mediaType := gate.value, file.value.mediaType;
          var full, scratch := FullFileName(name, mediaType), AssetPath(name, mediaType);
          && log == old(log) + Videos.TryEvents(scratch, full, mediaType, video, o) + [DeleteFile(scratch)]
          && files == Videos.FilesAfter(old(files), scratch, o)
          && store == (if Videos.Succeeds(o) then old(store)[Videos.VideoKey(o, full) := o.rewrite.value] else old(store))
          && db == (if Videos.Succeeds(o) then old(db)[videoId := Videos.Published(video, o, full)] else old(db))
          && res == (if Videos.Succeeds(o) then Ok(Videos.Published(video, o, full)) else Err(WriteFailed))
    {
      var gate := Videos.ValidateVideo(videoId, file, userID, db);
      if gate.Err? {
        return Err(gate.error);
      }
      res := Ingest(gate.value, name, file.value.mediaType, o);
    }

    /**
     * Everything handlerUploadVideo does once the request passed the gate: build
     * the scratch file's name, run the try block, delete the scratch file.
     */
    method Ingest(video: Video, name: string, mediaType: string, o: Videos.VideoOracle)
      returns (res: Result<Video, ApiError>)
      requires Valid() && video.id in db
      modifies this
      ensures Valid()
      ensures var full, scratch := FullFileName(name, mediaType), AssetPath(name, mediaType);
        && log == old(log) + Videos.TryEvents(scratch, full, mediaType, video, o) + [DeleteFile(scratch)]
        && files == Videos.FilesAfter(old(files), scratch, o)
        && store == (if Videos.Succeeds(o) then old(store)[Videos.VideoKey(o, full) := o.rewrite.value] else old(store))
        && db == (if Videos.Succeeds(o) then old(db)[video.id := Videos.Published(video, o, full)] else old(db))
        && res == (if Videos.Succeeds(o) then Ok(Videos.Published(video, o, full)) else Err(WriteFailed))
    {
      var fullFileName := FullFileName(name, mediaType);
      var filePath := AssetPath(name, mediaType);

      var thrown, updated := TryUpload(video, filePath, fullFileName, mediaType, o);
      // Both the normal exit and the catch clause delete only the original scratch file.
      DeleteScratch(filePath, o.deleteOk);
      if thrown {
        return Err(WriteFailed);
      }
      return Ok(updated);
    }

    /**
     * The try block of handlerUploadVideo: each call is made only after the
     * previous one completed; the record is updated only after the upload.
     */
    method TryUpload(video: Video, scratch: Path, fullFileName: string, mediaType: string, o: Videos.VideoOracle)
      returns (thrown: bool, updated: Video)
      requires Valid() && video.id in db
      modifies this
      ensures Valid()
      ensures thrown <==> !Videos.Succeeds(o)
      ensures !thrown ==> updated == Videos.Published(video, o, fullFileName)
      ensures log == old(log) + Videos.TryEvents(scratch, fullFileName, mediaType, video, o)
      ensures files == old(files) + Videos.Created(scratch, o)
      ensures store == (if Videos.Succeeds(o) then old(store)[Videos.VideoKey(o, fullFileName) := o.rewrite.value] else old(store))
      ensures db == (if Videos.Succeeds(o) then old(db)[video.id := Videos.Published(video, o, fullFileName)] else old(db))
    {
      thrown, updated := true, video;
      log := log + [WriteFile(scratch)];
      if !o.writeOk { return; }
      files := files + {scratch};

      log := log + [ProbeFile(scratch)];
      if o.probe.Err? { return; }
      var orientation := o.probe.value;

      log := log + [RewriteFile(scratch)];
      if o.rewrite.None? { return; }
      var fastStartFilePath := o.rewrite.value;
      files := files + {fastStartFilePath};

      var s3Path := Videos.StorageKey(orientation, fullFileName);
      log := log + [UploadObject(s3Path, fastStartFilePath, mediaType)];
      if !o.uploadOk { return; }
      store := store[s3Path := fastStartFilePath];

      updated := video.(videoURL := Some(s3Path));
      log := log + [UpdateRecord(updated)];
      db := db[updated.id := updated];
      thrown := false;
    }

    /** Deletion of a local file; a failed deletion is logged and swallowed, leaving the file. */
    method DeleteScratch(path: Path, ok: bool)
      modifies this`files, this`log
      ensures log == old(log) + [DeleteFile(path)]
      ensures files == if ok then old(files) - {path} else old(files)
    {
      log := log + [DeleteFile(path)];
      if ok {
        files := files - {path};
      }
    }

    /**
     * handlerUploadThumbnail: the validation gate, then thumbnailURL set to the
     * local path, the write, and the record update unless the write threw.
     */
    method UploadThumbnail(videoId: string, file: Option<FilePart>, userID: string, name: string,
                           write: Thumbnails.WriteOutcome)
      returns (res: Result<Video, ApiError>)
      requires Valid()
      modifies this
      ensures Valid()
      ensures store == old(store)
      ensures var gate := Thumbnails.ValidateThumbnail(videoId, file, userID, old(db));
        gate.Err? ==>
          && res == Err(gate.error)
          && files == old(files) && db == old(db) && log == old(log)
      ensures var gate := Thumbnails.ValidateThumbnail(videoId, file, userID, old(db));
        gate.Ok? ==>
          var path := AssetPath(name, file.value.mediaType);
          var updated := Thumbnails.WithThumbnail(gate.value, path);
          && files == (if write == Thumbnails.Written then old(files) + {path} else old(files))
          && (write == Thumbnails.ThrowsNow ==>
                res == Err(WriteFailed) && db == old(db) && log == old(log) + [WriteFile(path)])
          && (write != Thumbnails.ThrowsNow ==>
                && res == Ok(updated)
                && db == old(db)[videoId := updated]
                && log == old(log) + [WriteFile(path), UpdateRecord(updated)])
    {
      var gate := Thumbnails.ValidateThumbnail(videoId, file, userID, db);
      if gate.Err? {
        return Err(gate.error);
      }
      res := StoreThumbnail(gate.value, AssetPath(name, file.value.mediaType), write);
    }

    /**
     * Everything handlerUploadThumbnail does once the request passed the gate:
     * point thumbnailURL at the file, write it, and persist the record unless
     * the write threw.
     */
    method StoreThumbnail(video: Video, filePath: Path, write: Thumbnails.WriteOutcome)
      returns (res: Result<Video, ApiError>)
      requires Valid() && video.id in db
      modifies this
      ensures Valid()
      ensures store == old(store)
      ensures files == (if write == Thumbnails.Written then old(files) + {filePath} else old(files))
      ensures write == Thumbnails.ThrowsNow ==>
        res == Err(WriteFailed) && db == old(db) && log == old(log) + [WriteFile(filePath)]
      ensures write != Thumbnails.ThrowsNow ==>
        var updated := Thumbnails.WithThumbnail(video, filePath);
        && res == Ok(updated)
        && db == old(db)[video.id := updated]
        && log == old(log) + [WriteFile(filePath), UpdateRecord(updated)]
    {
      var updated := Thumbnails.WithThumbnail(video, filePath);
      log := log + [WriteFile(filePath)];
      if write == Thumbnails.ThrowsNow {
        return Err(WriteFailed);
      }
      if write == Thumbnails.Written {
        files := files + {filePath};
      }
      log := log + [UpdateRecord(updated)];
      db := db[updated.id := updated];
      return Ok(updated);
    }
  }
}
