# Upload handlers of a video-hosting API, modelled in Dafny

This project models the decision and control logic of the upload handlers of a small
video-hosting API.

- **Video upload** (`handlerUploadVideo`). A validation gate checks the video id, the
  file field, the media type (exactly `video/mp4`), the size (at most 10 GiB) and the
  owner of the record. Then a try block writes the upload to a scratch file under
  `assets/`, probes its orientation, rewrites it for fast start, uploads the rewritten
  file under `<orientation>/<name>.mp4` and persists the record with `videoURL` set to
  that key. On every exit from the try block the handler deletes the original scratch
  file.
- **Thumbnail upload** (`handlerUploadThumbnail`). The same gate runs with JPEG/PNG and
  a 10 MiB limit. The handler then points `thumbnailURL` at `assets/<name>.<subtype>`,
  writes the file, and persists the record unless the write threw.
- **Orientation classifier** (`calculateAspectRatio` and the decision
  `getVideoAspectRatio` makes after ffprobe has run). Landscape means a ratio within
  0.1 of 16/9. Portrait means within 0.1 of 9/16. Anything else is `other`. A missing
  or zero dimension gives `other`, and any diagnostic output is an error.

Modules:

- `Assets` covers orientation, computed with exact reals.
- `Uploads` holds the record, the errors, the shared gate, `split("/")[1]` and the
  `assets/` path.
- `Videos` covers the video gate, storage keys and the try block as a sequence of
  collaborator calls.
- `Thumbnails` covers the thumbnail gate and the thumbnail path.
- `Api` holds class `Server`. Its fields are the assets directory (a set of paths), the
  record store (a map), the object store (a map from key to uploaded file) and a log of
  collaborator calls. Both handlers are methods that update these fields.

Collaborators are inputs:

- The caller's user id.
- The random file name.
- A `Videos.VideoOracle` for the video handler. It holds the outcomes of the scratch
  write, the probe, the rewrite (the fast-start path or a failure), the upload and the
  deletion.
- A `Thumbnails.WriteOutcome` for the thumbnail write.

Some behaviours of the code are modelled as written:

- Only the original scratch file is deleted, on both exits from the try block, so the
  fast-start file always remains (`Videos.FastStartFileRemains`).
- Every failure inside the try block reaches the caller as `"Error writing file"`, not
  as the original error.
- The video handler reuses the thumbnail handler's messages for a missing media type
  and for a non-owner.
- The video size limit is 10 * 1024^3 bytes (10 GiB), although its comment says 1GB.

## Model

| member | source | states |
|---|---|---|
| `Assets.CalculateAspectRatio` | src/api/assets.ts:12-23 | zero height gives other; otherwise landscape exactly when 10·\|9w−16h\| < 9·\|h\|, and portrait exactly when that fails and 10·\|16w−9h\| < 16·\|h\| |
| `Assets.BandIff` | src/api/assets.ts:16-20 | for h ≠ 0, \|w/h − p/q\| < 0.1 holds exactly when 10·\|qw − ph\| < q·\|h\|, so the band tests can be done without division |
| `Assets.BandsDisjoint` | src/api/assets.ts:17-21 | no ratio is within 0.1 of both 16/9 and 9/16 |
| `Assets.BranchOrderIrrelevant` | src/api/assets.ts:17-21 | testing portrait before landscape gives the same classification for every width and height |
| `Assets.ProbeDecision` | src/api/assets.ts:46-57 | non-empty stderr is an error (with the source's message) whatever stdout held; with empty stderr, a missing or zero width or height gives other and never an error |
| `Assets.ProbeDecisionCrossMultiplied` | src/api/assets.ts:53-57 | on integer probe output, landscape and portrait are decided exactly by the cross-multiplied integer inequalities |
| `Assets.WorkedExamples` | src/api/assets.ts:12-23 | 1920×1080 is landscape, 1080×1920 is portrait, 1000×999 is other |
| `Uploads.Gate` | src/api/videos.ts:19-54 | checks run in source order (id, file, non-empty type, accepted type, size, owner), each failure with its message, the handler's own for an unaccepted type and "File too large" only for an accepted type; a missing id is rejected first whatever else holds; success exactly when every request check passes and the caller owns an existing record; Forbidden exactly when only ownership fails |
| `Uploads.SecondField` | src/api/videos.ts:62 | `split("/")[1]` is absent exactly when there is no '/' and never contains '/' |
| `Uploads.SecondFieldOfJoin` | src/api/videos.ts:62 | a "/" b, optionally followed by "/"…, splits to exactly b |
| `Uploads.Extension` | src/api/videos.ts:62 | the interpolated `mediaType.split("/")[1]`: never contains '/'; a media type without '/' gives the text "undefined"; otherwise it is shorter than the media type (its value is fixed by `Uploads.SecondFieldOfJoin`) |
| `Uploads.FullFileName` | src/api/videos.ts:62 | the random name, then '.', then a slash-free extension; a slash-free name gives a slash-free file name |
| `Uploads.AssetPath` | src/api/thumbnails.ts:61-64 | the path starts with `assets/`, and for a slash-free name it splits at '/' to exactly the file name, so it is one level below assets/ |
| `Uploads.AssetPathOf` | src/api/videos.ts:61-63 | a media type `top/sub` (neither part holding '/') gives the file name `<name>.<sub>` and the path `assets/<name>.<sub>` |
| `Videos.ValidateVideo` | src/api/videos.ts:16-54 | accepted exactly for a non-empty id, a file of type exactly video/mp4 and at most 10 737 418 240 bytes (inclusive), and an existing record owned by the caller; each rejection carries its message |
| `Videos.Mp4Extension` | src/api/videos.ts:61-63 | the accepted media type yields the extension mp4, so the scratch file is `assets/<name>.mp4` |
| `Videos.ParseStorageKey` | src/api/videos.ts:71 | a key that parses was built from the orientation and file name it parses to |
| `Videos.StorageKey` | src/api/videos.ts:71 | the first '/' of the key sits right after the orientation's name; before it is the orientation, after it the full file name (inverse in `Videos.StorageKeyRoundTrip`, `Videos.StorageKeyInjective`) |
| `Videos.StorageKeyRoundTrip` | src/api/videos.ts:71 | every key `orientation/fullFileName` parses back to that orientation and file name |
| `Videos.StorageKeyInjective` | src/api/videos.ts:71 | different orientations or file names never give the same key |
| `Videos.Published` | src/api/videos.ts:77 | the persisted record differs from the fetched one only in videoURL, which is set |
| `Videos.PublishedKey` | src/api/videos.ts:71-79 | the persisted videoURL is the key naming the probed orientation and the scratch file's name |
| `Videos.TryEvents` | src/api/videos.ts:65-80 | the try block makes between one and five calls, and all five exactly when it succeeds (the rest in `Videos.TryEventsStopAtFirstFailure`) |
| `Videos.TryEventsStopAtFirstFailure` | src/api/videos.ts:65-80 | every call but the last completed; the last failed unless all five ran; all five run exactly when the block succeeds; the upload sends the fast-start file under the key and the update persists that key |
| `Videos.TryEventsInPipelineOrder` | src/api/videos.ts:65-79 | the calls are write, probe, rewrite, upload, update, strictly in that order |
| `Videos.DiagnosticsStopPipeline` | src/api/videos.ts:66-69 | ffprobe diagnostics stop the try block after the probe, so no rewrite, upload or record update happens |
| `Videos.MissingDimensionStoredUnderOther` | src/api/assets.ts:53-55 | with no diagnostics and a missing or zero dimension the probe step succeeds and the video's key is `other/<file>` |
| `Videos.Created` | src/api/videos.ts:66-69 | the scratch file is created exactly when the write completes, the fast-start file when the rewrite completes, and nothing else |
| `Videos.FilesAfter` | src/api/videos.ts:81-91 | the handler adds only files the try block created and removes at most the scratch file (details in `Videos.FilesAfterCleanup`) |
| `Videos.FilesAfterCleanup` | src/api/videos.ts:81-91 | the scratch file is removed when its deletion succeeds and stays when it fails; the fast-start file is never removed; no other file is removed or added |
| `Videos.FastStartFileRemains` | src/api/videos.ts:69-85 | after a full success with a successful deletion, exactly the fast-start file is left behind |
| `Videos.KeyPrefixExamples` | src/api/videos.ts:68-71 | probed 1920×1080, 1080×1920 and 1000×999 give keys under landscape/, portrait/ and other/ |
| `Thumbnails.ValidateThumbnail` | src/api/thumbnails.ts:16-54 | accepted exactly for a non-empty id, a file of type image/jpeg or image/png of at most 10 485 760 bytes (inclusive), and an owned existing record; each rejection carries its message |
| `Thumbnails.ThumbnailExtension` | src/api/thumbnails.ts:61-64 | the accepted types yield the extensions jpeg and png |
| `Thumbnails.WithThumbnail` | src/api/thumbnails.ts:66 | thumbnailURL is set to the local path and no other field changes |
| `Api.Server.UploadVideo` | src/api/videos.ts:18-93 | a rejected request changes nothing; otherwise the log, files, object store, records and result are exactly those of the try block followed by deletion of the scratch file |
| `Api.Server.Ingest` | src/api/videos.ts:61-93 | the scratch name is built, the try block runs, the scratch file is deleted on every exit, and any failure is reported as "Error writing file" |
| `Api.Server.TryUpload` | src/api/videos.ts:65-80 | the calls made are `TryEvents`; files gain what was created; the object and the record change only when every step succeeded |
| `Api.Server.DeleteScratch` | src/api/videos.ts:81-91 | deletion is always attempted; a failed deletion leaves the file and raises nothing |
| `Api.Server.UploadThumbnail` | src/api/thumbnails.ts:18-76 | a rejected request changes nothing; otherwise the path is `assets/<name>.<subtype>`, a throwing write gives "Error writing file" with the record untouched, and any other outcome persists the record once |
| `Api.Server.StoreThumbnail` | src/api/thumbnails.ts:66-75 | the write is logged, then the update unless the write threw; the file exists only when the write completed |

## Left out

- HTTP and multipart parsing and `respondWithJSON` are not modelled. The handlers return the record, or the error they throw.
- Bearer-token and JWT validation are not modelled. The caller's user id is an input, and an invalid token is not represented.
- The `!fileData` check (src/api/videos.ts:56-59, src/api/thumbnails.ts:56-59) is left out. An `ArrayBuffer` is always truthy, so it never fires.
- The ffprobe process, stream reading and `JSON.parse` are not modelled. The probe is its stderr plus an optional width and height. Malformed JSON and a missing `streams[0]`, which throw, are not represented.
- `Assets.CalculateAspectRatio` computes with exact reals, not IEEE doubles. Ratios within rounding distance of a band edge may classify differently from the source.
- `processVideoForFastStart` and `dbVideoToSignedVideo` are not part of this model. The rewrite is an oracle that returns a path or fails. Signing and the response (src/api/videos.ts:94-96) are left out.
- Failed writes and rewrites are modelled as leaving no file. A partially written file is not represented.
- `randomBytes(32).toString("base64url")` is an input string. Uniqueness of names is probabilistic and not modelled.
- `path.join("assets", f)` is modelled as `"assets/" + f`. Path normalisation matters only for names containing separators, which base64url names never do.
- The `cfg.s3Client?.write` skip when no client is configured is left out. The upload is always attempted.
- `getVideo` and `updateVideo` internals are not modelled. The record store is a map, and updates never fail.
- Video record fields other than id, owner, thumbnailURL and videoURL are left out.
- When a later step throws, the in-memory record object is already mutated. That object is never returned or persisted, so it is not modelled.
- `ensureAssetsDir`, console logging and the unused `videoThumbnails` map are left out.
- async scheduling and concurrent uploads are not modelled. Each handler runs as one sequential call.
- The unawaited `Bun.write` of a thumbnail has three outcomes: it completes, it throws synchronously, or it fails later unobserved. A rejected promise is never seen by the handler.
