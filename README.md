# Travel Echo video generation, modelled in Dafny

Travel Echo turns travel photos and a short text into a video. This project
models the core of that pipeline and proves properties of it:

- the service-level generator (`src/services/videoGenerator.ts`): input
  validation, the duration default, the data-URL parse, and the order of
  writes, encoding and clean-up in `generateVideo`;
- the URL-based generator (`src/utils/videoGenerator.ts`): local/remote photo
  fetching, per-index temporary paths, the equal split of the duration in the
  slideshow job, and the step order of `generateVideo`;
- the local storage handler (`src/utils/localStorageHandler.ts`): file names,
  public URLs, the `deleteFile` path rule and the 24-hour `cleanup`;
- the three HTTP handlers (`src/app/api/generate/route.ts`,
  `src/pages/api/memories/video.ts`, `src/pages/api/demo/generate.ts`): their
  guard chains and status mapping;
- the mock generator's progress events (`src/utils/mockResponses.ts`);
- the progress bar's percentage clamp;
- the two photo pickers (`src/components/PhotoUploader/index.tsx`,
  `src/components/PhotoUpload.tsx`): capped append, file filter, removal by
  index and URL revocation.

One module per source file, plus `JsCommon` for the JavaScript vocabulary
(truthiness, `startsWith`, decimal rendering, `trim`'s whitespace,
`Promise.all` settling, removal by index). Foreign calls are parameters:
the file system, ffmpeg, axios, uuid, `Date.now`, md5, `FileReader`,
`URL.createObjectURL` and the language model. Their answers come in as
values, and the model returns the calls it makes as a step log. Classes
model the objects whose state the source updates. These are the storage
handler's disk, the URL-based generator, and the two components' photo
lists, alerts, callbacks and revocations.

## Model

| member | source | states |
|---|---|---|
| JsCommon.FirstFailure | src/services/videoGenerator.ts:87-89 | a `Promise.all` fan-out taken in index order settles with no error exactly when no index below n fails, and otherwise with the error of some failing index |
| JsCommon.MessageOr | src/services/videoGenerator.ts:122-126 | a caught `Error` yields its message; any other thrown value yields the fallback text |
| JsCommon.Truthy | src/pages/api/memories/video.ts:15 | a field is falsy exactly when it is missing, `null`, `false`, `0` or the empty string; an empty array is truthy |
| JsCommon.TrimsToEmpty | src/services/videoGenerator.ts:45 | `text.trim()` is empty iff every character is ECMAScript whitespace or a line terminator |
| JsCommon.IsNonEmptyArray | src/app/api/generate/route.ts:16 | the photo guard answers 400 (photos falsy, or not an array, or an empty array) exactly when this is false; every value it accepts is truthy |
| JsCommon.DropIndex | src/components/PhotoUploader/index.tsx:49 | filtering out one index never lengthens the list |
| JsCommon.DropIndexInRange | src/components/PhotoUploader/index.tsx:48-52 | removing an index in range leaves the elements before it and the elements after it, in order |
| JsCommon.DropIndexOutOfRange | src/components/PhotoUploader/index.tsx:48-52 | removing an index outside the list leaves it unchanged |
| ServicesVideoGenerator.ValidateInput | src/services/videoGenerator.ts:40-58 | no error iff there are photos, the trimmed text is non-empty, the text is at most 500 long and every photo starts with `data:image/`; the checks report in order, each with its own message: `No photos provided`, `Text cannot be empty`, `Text length exceeds limit`, `Invalid photo format` |
| ServicesVideoGenerator.ValidateDuration | src/services/videoGenerator.ts:60-65 | the result is at least 5; a duration of 5 or more is kept; one below 5 becomes 15 |
| ServicesVideoGenerator.ValidateDurationIdempotent | src/services/videoGenerator.ts:60-65 | applying the duration default twice changes nothing |
| ServicesVideoGenerator.ParseDataUrl | src/services/videoGenerator.ts:67-73 | a string that matches starts with `data:image/` and is exactly `data:image/` + letters + `;base64,` + a non-empty payload without line terminators |
| ServicesVideoGenerator.DataUrlRoundTrip | src/services/videoGenerator.ts:68-73 | parsing the data URL built from letters and a payload gives back that extension and payload |
| ServicesVideoGenerator.TempImagePath | src/services/videoGenerator.ts:75-76 | the image file is `<id>.<ext>` directly inside the temporary directory |
| ServicesVideoGenerator.OutputPath | src/services/videoGenerator.ts:91-92 | the output file is `video-<id>.mp4` directly inside `public/videos` |
| ServicesVideoGenerator.VideoUrl | src/services/videoGenerator.ts:118-121 | the success URL is `/videos/` followed by exactly the output file name |
| ServicesVideoGenerator.VideoUrlNamesOutput | src/services/videoGenerator.ts:91-92 | the reported `/videos/...` URL, served from `public`, is the file the encoder wrote |
| ServicesVideoGenerator.ParseAll | src/services/videoGenerator.ts:87-88 | one match per photo |
| ServicesVideoGenerator.ParseAllAt | src/services/videoGenerator.ts:87-88 | entry k of the matched list is the match of photo k |
| ServicesVideoGenerator.AllParseEvery | src/services/videoGenerator.ts:68-71 | the fan-out has no parse failure iff every photo matched |
| ServicesVideoGenerator.WriteFor | src/services/videoGenerator.ts:67-80 | a photo that matched gets exactly one write, to `temp/<id>.<ext>` with its payload; a photo that did not match gets none |
| ServicesVideoGenerator.ImageWrites | src/services/videoGenerator.ts:87-89 | the fan-out issues at most one write per photo and only writes |
| ServicesVideoGenerator.ImagePaths | src/services/videoGenerator.ts:73-79 | when every photo parses, there is one temporary path per photo |
| ServicesVideoGenerator.SaveError | src/services/videoGenerator.ts:67-89 | the fan-out fails with `Invalid base64 image format` when some photo did not match, and otherwise with the first failing write |
| ServicesVideoGenerator.Unlinks | src/services/videoGenerator.ts:116 | one unlink per image file, in the files' order |
| ServicesVideoGenerator.SaveImages | src/services/videoGenerator.ts:87-89 | the saving loop issues exactly the fan-out's writes; its error is the fan-out's error; on success it returns the paths in photo order |
| ServicesVideoGenerator.UnlinkAll | src/services/videoGenerator.ts:116 | one unlink per file, in order; the error is the first failing unlink |
| ServicesVideoGenerator.Produce | src/services/videoGenerator.ts:87-121 | a failed save stops before the encoder; the encoder gets the images in order and the given duration; unlinks happen only after a successful encode; success carries `/videos/video-<id>.mp4`; every failure carries the error's message |
| ServicesVideoGenerator.GenerateVideo | src/services/videoGenerator.ts:82-128 | an invalid input reports its message and touches nothing; otherwise the saving, encoding and unlinking above run with the validated duration, and every failure becomes `success: false` with the error's message |
| ServicesVideoGenerator.EmptyPhotosCheckedFirst | src/services/videoGenerator.ts:41-43 | an empty photo list is refused with `No photos provided`, whatever the text |
| ServicesVideoGenerator.TextAtLimitAccepted | src/services/videoGenerator.ts:49-51 | a text of exactly 500 characters passes |
| ServicesVideoGenerator.PhotoFormatAfterTextChecks | src/services/videoGenerator.ts:53-57 | `Invalid photo format` is reported only when both text checks passed and some photo lacks the prefix |
| ServicesVideoGenerator.OneWritePerPhoto | src/services/videoGenerator.ts:84-89 | when every photo parses, there is exactly one write per photo, and write k goes to path k with photo k's payload |
| ServicesVideoGenerator.TempImagePathsDistinct | src/services/videoGenerator.ts:75-76 | temporary paths with identifiers of the same length coincide only when the identifiers do |
| ServicesVideoGenerator.ImagePathAt | src/services/videoGenerator.ts:73-79 | saved path k is photo k's own file `temp/<id k>.<ext k>` |
| ServicesVideoGenerator.ImagePathsDistinct | src/services/videoGenerator.ts:75-88 | with pairwise different identifiers of one length, no two photos are written to the same file |
| UtilsVideoGenerator.TempDir | src/utils/videoGenerator.ts:22 | the temporary directory is `temp` directly inside the working directory |
| UtilsVideoGenerator.OutputPath | src/utils/videoGenerator.ts:23 | the encoder's output is `output-<now>.mp4` inside the temporary directory |
| UtilsVideoGenerator.PhotoPath | src/utils/videoGenerator.ts:31 | photo i is fetched to `photo-<i>.jpg` inside the temporary directory |
| UtilsVideoGenerator.OutputIsNoPhoto | src/utils/videoGenerator.ts:23-31 | the encoder's output path is never a fetched photo's path |
| UtilsVideoGenerator.PhotoPathInjective | src/utils/videoGenerator.ts:31 | different photo indexes give different temporary paths |
| UtilsVideoGenerator.LocalPhotos | src/utils/videoGenerator.ts:29-35 | one local path per photo, path k being `photo-k.jpg` in the temporary directory |
| UtilsVideoGenerator.LocalPhotosDistinct | src/utils/videoGenerator.ts:29-35 | no two photos are fetched to the same local path |
| UtilsVideoGenerator.FetchPlan | src/utils/videoGenerator.ts:52-68 | a reference is copied from `<cwd>/public` iff it starts with `/`, otherwise it is downloaded from its URL; both go to the given destination |
| UtilsVideoGenerator.FetchSteps | src/utils/videoGenerator.ts:29-35 | photo k is fetched to path k, one fetch per photo, in order |
| UtilsVideoGenerator.CaptionFilter | src/utils/videoGenerator.ts:87-101 | the caption is the text verbatim, 24-point white, centred, 50 pixels above the bottom, with a black shadow |
| UtilsVideoGenerator.CaptionFilterInjective | src/utils/videoGenerator.ts:87-101 | two captions are the same filter iff their texts are equal |
| UtilsVideoGenerator.SlideshowJob | src/utils/videoGenerator.ts:70-108 | the job has one looped input per photo, in order, each lasting `duration / photos.length`; the caption is the text verbatim |
| UtilsVideoGenerator.SlideshowDurationsSum | src/utils/videoGenerator.ts:80-85 | with at least one photo, the per-photo durations add up to the requested duration |
| UtilsVideoGenerator.Plan | src/utils/videoGenerator.ts:20-50 | a generation that does not fail takes the photo count plus five steps |
| UtilsVideoGenerator.Stop | src/utils/videoGenerator.ts:20-50 | the run stops early iff some call fails; a failing `mkdir` stops after one step; the video is stored iff every call up to reading the output succeeded; at most the whole plan is taken |
| UtilsVideoGenerator.RemoveOnlyAfterEverythingElse | src/utils/videoGenerator.ts:20-50 | a run that stops on an error before the end has not removed the temporary directory |
| UtilsVideoGenerator.PlanBracketedByTempDir | src/utils/videoGenerator.ts:20-50 | the first step creates the temporary directory; the last removes it, right after the video is stored |
| UtilsVideoGenerator.VideoGenerator.constructor | src/utils/videoGenerator.ts:16-18 | the generator owns a new storage handler rooted at the working directory |
| UtilsVideoGenerator.VideoGenerator.FetchAll | src/utils/videoGenerator.ts:29-35 | every fetch is issued, in order; the local paths are by index; the error is the first failing fetch |
| UtilsVideoGenerator.VideoGenerator.CreateVideo | src/utils/videoGenerator.ts:70-108 | the builder loop produces exactly the slideshow job |
| UtilsVideoGenerator.VideoGenerator.GenerateVideo | src/utils/videoGenerator.ts:20-50 | the steps are the plan up to the first failure, which is rethrown; on success the storage handler's URL is returned; storage changes iff the store step was taken |
| LocalStorage.VideoUrl | src/utils/localStorageHandler.ts:18-26 | a saved video's URL is `/storage/videos/` followed by exactly the stored file name |
| LocalStorage.VideoUrlInjective | src/utils/localStorageHandler.ts:19-25 | saves at different instants get different URLs |
| LocalStorage.VideoUrlNamesStoredFile | src/utils/localStorageHandler.ts:18-26 | the returned URL, read relative to `<cwd>/public`, is exactly the path the video was written to |
| LocalStorage.FileUrl | src/utils/localStorageHandler.ts:58-61 | the URL is `/storage/` followed by exactly the file name |
| LocalStorage.FileUrlNamesStoredFile | src/utils/localStorageHandler.ts:50-60 | the URL of a name, read relative to `<cwd>/public`, is the path the upload of that name is written to |
| LocalStorage.Extname | src/utils/localStorageHandler.ts:48 | an extension is empty or a dot followed by text without slash or further dot |
| LocalStorage.NameHasNoSlash | src/utils/localStorageHandler.ts:48 | a name built from slash-free parts has no slash, so `path.extname` sees it as one segment |
| LocalStorage.ExtnameOfFileName | src/utils/localStorageHandler.ts:48 | the extension of `base.ext`, with no slash or dot in `ext`, is `.ext` |
| LocalStorage.UploadFileName | src/utils/localStorageHandler.ts:47-49 | the stored name is the digest followed by the original name's extension; a slash-free digest gives a name directly inside the storage directory |
| LocalStorage.StripLeadingSlash | src/utils/localStorageHandler.ts:64 | one leading slash is removed, and nothing else changes |
| LocalStorage.DeleteTarget | src/utils/localStorageHandler.ts:64 | the target is `<storageDir>/` followed by the given path minus at most one leading slash, before `path.join` normalisation |
| LocalStorage.DeleteOfFileUrlMissesUpload | src/utils/localStorageHandler.ts:58-66 | deleting by the URL `getFileUrl` returns aims at `storage/<name>` inside the storage directory, not at the stored file |
| LocalStorage.DeleteTargetIgnoresOneSlash | src/utils/localStorageHandler.ts:63-66 | `/name` and `name` delete the same file |
| LocalStorage.Expired | src/utils/localStorageHandler.ts:32-39 | a file is expired iff its change time is more than 86,400,000 ms before now |
| LocalStorage.InDir | src/utils/localStorageHandler.ts:30-36 | an entry of a directory is the directory joined with the entry's own name |
| LocalStorage.JoinInDir | src/utils/localStorageHandler.ts:30-36 | a slash-free name joined to a directory is one of its entries |
| LocalStorage.SavedVideoInDir | src/utils/localStorageHandler.ts:18-36 | every saved video is an entry of the video directory, so `cleanup` considers it |
| LocalStorage.Swept | src/utils/localStorageHandler.ts:28-44 | after cleanup, a file remains iff it is not an entry of the directory older than one day, and its content is unchanged |
| LocalStorage.CleanupKeepsDayOldFiles | src/utils/localStorageHandler.ts:39 | a file at most one day old survives cleanup unchanged |
| LocalStorage.SweptIdempotent | src/utils/localStorageHandler.ts:28-44 | cleaning up twice at the same instant removes nothing more |
| LocalStorage.LocalStorageHandler.constructor | src/utils/localStorageHandler.ts:5-11 | the storage directory is `<cwd>/public/storage` and the video directory is `videos` inside it |
| LocalStorage.LocalStorageHandler.SaveVideo | src/utils/localStorageHandler.ts:18-26 | exactly one file is written, `video-<now>.mp4` in the video directory, and its URL is returned |
| LocalStorage.LocalStorageHandler.Cleanup | src/utils/localStorageHandler.ts:28-44 | the loop over directory entries leaves exactly the swept disk |
| LocalStorage.LocalStorageHandler.SaveUploadedFile | src/utils/localStorageHandler.ts:46-56 | the file is written under its digest plus original extension, and that name's public URL is returned |
| LocalStorage.LocalStorageHandler.DeleteFile | src/utils/localStorageHandler.ts:63-66 | exactly the target path is removed; the result says whether it existed |
| LocalStorage.UploadNameDependsOnContentAndExtension | src/utils/localStorageHandler.ts:46-49 | equal contents with equal extensions get the same stored name |
| GenerateRoute.DefaultedDuration | src/app/api/generate/route.ts:58 | a truthy duration is passed on; a falsy one becomes five seconds per photo |
| GenerateRoute.IsNonEmptyString | src/app/api/generate/route.ts:32 | the text guard passes exactly for a truthy string |
| GenerateRoute.Post | src/app/api/generate/route.ts:8-96 | an unparsable body gives 500; photos that are not a non-empty array give 400 first; a text that is not a non-empty string gives 400; the generator is called iff both guards pass; its URL gives 200 and its error gives 500 |
| GenerateRoute.ZeroDurationDefaults | src/app/api/generate/route.ts:58 | a zero duration is treated as missing |
| GenerateRoute.PhotosCheckedBeforeText | src/app/api/generate/route.ts:16-46 | missing or empty photos are reported even when the text is missing too |
| MemoriesVideoApi.Handler | src/pages/api/memories/video.ts:4-35 | a method other than POST gives 405 first; any falsy field gives 400; non-array or empty photos give 400; the generator is called iff all guards pass, with the fields unchanged; its URL gives 200; any throw gives 500 with the fixed message |
| MemoriesVideoApi.EmptyArrayRefusedBySecondGuard | src/pages/api/memories/video.ts:15-21 | an empty photo array passes the truthiness guard and is refused by the array guard |
| DemoGenerateApi.HasPhotos | src/pages/api/demo/generate.ts:34 | `review.photos?.length` is truthy only for a truthy field; an array passes iff it is non-empty; an object passes iff its `length` is truthy; a missing or `null` field fails |
| DemoGenerateApi.Handler | src/pages/api/demo/generate.ts:19-71 | a method other than POST gives 405; a missing review text, or photos without a truthy length, gives 400 with no call; the enhancer is called first; the generator then gets the enhanced text and 15 seconds; a failed result is passed through with 500; success adds the enhanced text with 200 |
| DemoGenerateApi.GeneratorGetsEnhancedText | src/pages/api/demo/generate.ts:49-55 | the generator call is the second call, with the enhanced text and a 15-second duration |
| DemoGenerateApi.ArrayLikePhotosReachGenerator | src/pages/api/demo/generate.ts:34-58 | an object with a truthy `length` passes the guard: the enhancer and then the generator are called, the generator with that object, and a failed generation answers 500 |
| MockResponses.StageEvents | src/utils/mockResponses.ts:45-55 | two reports per stage, the last one being the last stage at 100 |
| MockResponses.StageEventsShape | src/utils/mockResponses.ts:45-55 | each stage produces two reports, 0 at position 2k and 100 at position 2k+1 |
| MockResponses.EventAt | src/utils/mockResponses.ts:45-55 | report k belongs to stage k/2, at 0 when k is even and at 100 when k is odd |
| MockResponses.ProgressWithinStages | src/utils/mockResponses.ts:45-55 | within a stage, progress never decreases |
| MockResponses.NewStageStartsAtZero | src/utils/mockResponses.ts:45-49 | the first report of a new stage is at 0 |
| MockResponses.LabelInjective | src/utils/mockResponses.ts:20 | the four stage names are different from one another |
| MockResponses.MockEventsVisitStagesInOrder | src/utils/mockResponses.ts:43-55 | the mock reports eight events, visiting the four stages in their fixed order |
| MockResponses.MockEventLabels | src/utils/mockResponses.ts:43-55 | report k carries the k/2-th name of 準備照片, 生成影片, 添加文字, 完成 |
| MockResponses.StagesDistinct | src/utils/mockResponses.ts:43 | the four stages are different from one another |
| MockResponses.MockVideoUrl | src/utils/mockResponses.ts:57-59 | the mock URL is `/storage/videos/` followed by exactly the file name the storage handler gives a video saved at that instant |
| MockResponses.MockUrlMatchesStorage | src/utils/mockResponses.ts:58-59 | the mock URL has the same shape as a stored video's URL |
| MockResponses.MockVideoGeneration | src/utils/mockResponses.ts:37-60 | with a callback, the stage reports arrive exactly in order; without one there are none; the URL depends only on the time |
| ProgressBar.Percentage | src/components/ProgressBar/index.tsx:14 | the percentage is within [0, 100]; values already inside are kept; values below are raised to 0 and values above are lowered to 100 |
| ProgressBar.PercentageIdempotent | src/components/ProgressBar/index.tsx:14 | clamping twice changes nothing |
| ProgressBar.PercentageMonotone | src/components/ProgressBar/index.tsx:14 | a larger progress never shows a smaller percentage |
| PhotoUploader.TooManyPhotos | src/components/PhotoUploader/index.tsx:19 | the alert starts with `最多只能上傳 ` |
| PhotoUploader.TooManyPhotosNamesCap | src/components/PhotoUploader/index.tsx:19 | the alert names the cap: different caps give different messages |
| PhotoUploader.ReadAll | src/components/PhotoUploader/index.tsx:23-32 | all files are read iff every reader succeeds, and data URL k is file k's |
| PhotoUploader.AfterDrop | src/components/PhotoUploader/index.tsx:18-34 | a drop is refused iff it would pass the cap; an accepted drop gives the old list followed by the new items and stays within the cap |
| PhotoUploader.DropStaysWithinCap | src/components/PhotoUploader/index.tsx:12-34 | a list within the cap stays within it after any drop |
| PhotoUploader.PhotoUploader.constructor | src/components/PhotoUploader/index.tsx:10-15 | a new component has no previews, no callbacks and no alerts |
| PhotoUploader.PhotoUploader.WithDefaultCap | src/components/PhotoUploader/index.tsx:12 | without a prop the cap is 10 |
| PhotoUploader.PhotoUploader.OnDrop | src/components/PhotoUploader/index.tsx:17-37 | a drop over the cap only alerts, naming the cap; otherwise, when every read succeeds, the previews become old plus new in drop order and the callback gets exactly that list; the cap invariant is kept |
| PhotoUploader.PhotoUploader.RemovePhoto | src/components/PhotoUploader/index.tsx:48-52 | only element i is removed and the rest keep their order; an index out of range changes nothing; the callback gets the new list |
| PhotoUpload.IsValidFile | src/components/PhotoUpload.tsx:37-42 | a file is valid iff its type begins with `image/` and its size is at most 10,485,760 bytes |
| PhotoUpload.ValidFiles | src/components/PhotoUpload.tsx:38-43 | a file is kept iff its type starts with `image/` and it is at most 10 MB |
| PhotoUpload.ValidFilesConcat | src/components/PhotoUpload.tsx:38-43 | the filter keeps selection order: filtering two batches is filtering each in turn |
| PhotoUpload.AllValidKept | src/components/PhotoUpload.tsx:38-43 | a selection made only of valid files is kept whole |
| PhotoUpload.AcceptedFiles | src/components/PhotoUpload.tsx:28-48 | no file list, or an empty one, yields nothing; otherwise the valid files |
| PhotoUpload.ObjectUrls | src/components/PhotoUpload.tsx:51-55 | one object URL per accepted file, in order: URL i is the one created for file i, as the i-th after those already created |
| PhotoUpload.UploadDisabled | src/components/PhotoUpload.tsx:97 | the button is enabled below ten photos and disabled from ten on |
| PhotoUpload.DisabledStaysDisabled | src/components/PhotoUpload.tsx:97 | adding photos never enables a disabled button again |
| PhotoUpload.LimitNotEnforced | src/components/PhotoUpload.tsx:51-62 | with the button enabled, a selection of valid files is appended whole, so the list can pass ten |
| PhotoUpload.PhotoUpload.constructor | src/components/PhotoUpload.tsx:12-13 | the component starts from the shared list, with no URLs created or revoked |
| PhotoUpload.PhotoUpload.HandlePhotoUpload | src/components/PhotoUpload.tsx:26-66 | fresh URLs for the accepted files are appended after the existing photos in selection order, new photo k being the URL created for accepted file k; no valid file changes nothing; nothing is revoked |
| PhotoUpload.PhotoUpload.HandlePhotoDelete | src/components/PhotoUpload.tsx:68-77 | only photo i is removed and the rest keep their order; its URL is revoked iff it starts with `blob:` |

## Left out

- Encoding: ffmpeg is an external process. Each generator records the job it describes and takes the encoder's success or failure as a parameter. Apart from `-t`, recorded as the job's seconds, the output options list of src/services/videoGenerator.ts:101-109 is not recorded.
- Concurrent requests: every run of the URL-based generator uses the same `<cwd>/temp` directory, so two runs at once write the same `photo-<i>.jpg` files, and the first to finish removes the directory while the other still uses it. The model describes one run at a time; `LocalPhotosDistinct` and `PlanBracketedByTempDir` hold within a single run only.
- Concurrency: each `Promise.all` is taken in index order. When several calls fail, the model reports the smallest failing index. The real rejection is whichever failure settles first.
- ServicesVideoGenerator.SaveError: a parse failure rejects synchronously within the fan-out, so its message is taken to win over any write failure.
- `path.join` normalisation: paths are joined with `/`. The names joined here need no normalisation, apart from `..` or `//` inside user-supplied references. Among these is `deleteFile`'s argument: `path.join` normalises `../../secret` to a path outside the storage directory, while `DeleteTarget` keeps the unnormalised string.
- Numbers are mathematical integers and reals. This leaves out NaN, infinities, IEEE rounding of `duration / photos.length`, `Math.round` in the progress bar, and `duration.toString()`.
- Strings are sequences of code points, while JavaScript lengths count UTF-16 units. A text with characters outside the Basic Multilingual Plane can be shorter here than the 500-unit check sees.
- Request bodies: a JSON body is a value with optional fields. A `null` body, or a body whose destructuring throws, is not modelled.
- The storage handler's disk never fails: `writeFile`, `stat` and `readdir` errors are not modelled.
- LocalStorage.LocalStorageHandler.DeleteFile: a missing target returns `false`, where the source's `unlink` rejects with ENOENT.
- The constructors' unawaited `ensureDirectories` calls are fire-and-forget, so the directories are taken to exist.
- `FileReader` errors: a failing reader leaves the state unchanged. The rejected promise of the async drop handler is not modelled.
- react-dropzone's own filtering of accepted types and `maxFiles`: `onDrop` receives the files it accepted.
- The `useEffect` clean-up that revokes every blob URL when the photo list changes is not modelled. Only the revocation in `handlePhotoDelete` is.
- PhotoUpload.PhotoUpload.HandlePhotoDelete: requires the index to name a photo; for any other index the source fails with a TypeError on `prev[index].startsWith`, which its only caller, a button rendered per photo, never triggers.
- `event.target.value = ''` and the console logging are not modelled.
- Timers: the mock's delay between reports is not modelled.
- UI rendering is not modelled.
- The language model's text enhancement and the base64 decoding of payloads are not modelled.
- uuid, `Date.now` and md5 values are parameters.
