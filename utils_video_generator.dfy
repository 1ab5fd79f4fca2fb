/**
 * The URL-based generator of src/utils/videoGenerator.ts: it creates a
 * temporary directory, fetches every photo into it (a reference starting with
 * `/` is copied from the public directory, anything else is downloaded), asks
 * the encoder for a slideshow in which every photo gets an equal share of the
 * duration and the caption is drawn as text, reads the result back, hands it
 * to the storage handler and removes the temporary directory. Any failure
 * propagates to the caller; there is no `finally`, so the directory is
 * removed only when every earlier step succeeded.
 *
 * File-system calls, the network, the encoder and `Date.now()` are foreign:
 * their answers are parameters (`UrlEnv`), and the generator records the
 * steps it asks for.
 */
module UtilsVideoGenerator {
  import opened JsCommon
  import LocalStorage

  /** One encoder input: `command.input(path).duration(seconds).inputOptions(options)`. */
  datatype EncodeInput = EncodeInput(path: string, seconds: real, inputOptions: seq<string>)

  /** The `drawtext` filter's options. */
  datatype DrawText = DrawText(
    text: string, fontsize: nat, fontcolor: string, x: string, y: string,
    shadowcolor: string, shadowx: nat, shadowy: nat)

  datatype EncodeJob = EncodeJob(inputs: seq<EncodeInput>, caption: DrawText, output: string)

  /** What `downloadFile` does with one reference. */
  datatype Fetch = CopyLocal(source: string, destination: string) | Download(url: string, destination: string)

  datatype Step =
    | MakeTempDir(dir: string)
    | FetchPhoto(fetch: Fetch)
    | RunEncoder(job: EncodeJob)
    | ReadOutput(path: string)
    | StoreVideo(url: string)
    | RemoveTempDir(dir: string)

  /**
   * The answers of the foreign calls: the two `Date.now()` readings (output
   * name, stored name), and the failure, if any, of `mkdir`, of each photo's
   * fetch (by index), of the encoder, of `readFile` and of `rm`.
   */
  datatype UrlEnv = UrlEnv(
    startedAt: nat,
    mkdirError: Option<Thrown>,
    fetchErrors: map<nat, Thrown>,
    encodeError: Option<Thrown>,
    readResult: Outcome<LocalStorage.Bytes>,
    savedAt: nat,
    rmError: Option<Thrown>)

  /** `path.join(process.cwd(), 'temp')` */
  function TempDir(cwd: string): (dir: string)
    ensures StartsWith(dir, cwd + "/") && dir[|cwd + "/"|..] == "temp"
  {
    StartsWithConcat(cwd + "/", "temp");
    cwd + "/" + "temp"
  }

  /** `path.join(tempDir, `output-${Date.now()}.mp4`)`: the encoder's output, inside the temporary directory. */
  function OutputPath(tempDir: string, ts: nat): (p: string)
    ensures StartsWith(p, tempDir + "/") && p[|tempDir + "/"|..] == "output-" + Decimal(ts) + ".mp4"
  {
    StartsWithConcat(tempDir + "/", "output-" + Decimal(ts) + ".mp4");
    tempDir + "/" + ("output-" + Decimal(ts) + ".mp4")
  }

  /** `path.join(tempDir, `photo-${index}.jpg`)`: a fetched photo, inside the temporary directory. */
  function PhotoPath(tempDir: string, i: nat): (p: string)
    ensures StartsWith(p, tempDir + "/") && p[|tempDir + "/"|..] == "photo-" + Decimal(i) + ".jpg"
  {
    StartsWithConcat(tempDir + "/", "photo-" + Decimal(i) + ".jpg");
    tempDir + "/" + ("photo-" + Decimal(i) + ".jpg")
  }

  /** The encoder never writes over a fetched photo. */
  lemma OutputIsNoPhoto(tempDir: string, ts: nat, i: nat)
    ensures OutputPath(tempDir, ts) != PhotoPath(tempDir, i)
  {
    var k := |tempDir + "/"|;
    assert OutputPath(tempDir, ts)[k..][0] == 'o';
    assert PhotoPath(tempDir, i)[k..][0] == 'p';
  }

  /** Different indexes give different temporary paths. */
  lemma PhotoPathInjective(tempDir: string, i: nat, j: nat)
    requires PhotoPath(tempDir, i) == PhotoPath(tempDir, j)
    ensures i == j
  {
    assert PhotoPath(tempDir, i) == tempDir + "/photo-" + Decimal(i) + ".jpg";
    assert PhotoPath(tempDir, j) == tempDir + "/photo-" + Decimal(j) + ".jpg";
    SameFrameSameMiddle(tempDir + "/photo-", Decimal(i), Decimal(j), ".jpg");
    DecimalInjective(i, j);
  }

  /** The temporary paths of n photos, by index. */
  function LocalPhotos(tempDir: string, n: nat): (paths: seq<string>)
    ensures |paths| == n
    ensures forall k :: 0 <= k < n ==> paths[k] == PhotoPath(tempDir, k)
  {
    seq(n, k requires 0 <= k < n => PhotoPath(tempDir, k))
  }

  /** The local path list has one entry per photo, and no two entries coincide. */
  lemma LocalPhotosDistinct(tempDir: string, n: nat)
    ensures forall i, j :: 0 <= i < j < n ==> LocalPhotos(tempDir, n)[i] != LocalPhotos(tempDir, n)[j]
  {
    forall i, j | 0 <= i < j < n ensures LocalPhotos(tempDir, n)[i] != LocalPhotos(tempDir, n)[j] {
      if PhotoPath(tempDir, i) == PhotoPath(tempDir, j) {
        PhotoPathInjective(tempDir, i, j);
      }
    }
  }

  /** `downloadFile`'s dispatch: `/`-references are local files under `<cwd>/public`, the rest are URLs. */
  function FetchPlan(cwd: string, ref: string, destination: string): (f: Fetch)
    ensures f.destination == destination
    ensures StartsWith(ref, "/") <==> f.CopyLocal?
    ensures f.CopyLocal? ==> f.source == cwd + "/public" + ref
    ensures f.Download? ==> f.url == ref
  {
    if StartsWith(ref, "/") then CopyLocal(cwd + "/public" + ref, destination) else Download(ref, destination)
  }

  function FetchSteps(cwd: string, photos: seq<string>): (s: seq<Step>)
    ensures |s| == |photos|
    ensures forall k :: 0 <= k < |photos| ==> s[k] == FetchPhoto(FetchPlan(cwd, photos[k], PhotoPath(TempDir(cwd), k)))
  {
    seq(|photos|, k requires 0 <= k < |photos| => FetchPhoto(FetchPlan(cwd, photos[k], PhotoPath(TempDir(cwd), k))))
  }

  const LoopOption := "-loop 1"

  /** The `drawtext` options: the text verbatim, 24-point white, centred 50 pixels above the bottom, with a black shadow. */
  function CaptionFilter(text: string): (c: DrawText)
    ensures c.text == text
    ensures c.fontsize == 24 && c.fontcolor == "white" && c.shadowcolor == "black"
    ensures c.x == "(w-text_w)/2" && c.y == "h-th-50"
  {
    DrawText(text, 24, "white", "(w-text_w)/2", "h-th-50", "black", 2, 2)
  }

  /** Only the text varies: two captions are the same filter iff they have the same text. */
  lemma CaptionFilterInjective(a: string, b: string)
    ensures CaptionFilter(a) == CaptionFilter(b) <==> a == b
  {
  }

  /**
   * The job `createVideo` describes: the photos in order, each looped for
   * `duration / photos.length` seconds, and the caption drawn verbatim.
   */
  function SlideshowJob(photos: seq<string>, text: string, duration: real, outputPath: string): (job: EncodeJob)
    ensures |job.inputs| == |photos|
    ensures forall k :: 0 <= k < |photos| ==>
      job.inputs[k] == EncodeInput(photos[k], duration / (|photos| as real), [LoopOption])
    ensures job.caption.text == text && job.output == outputPath
  {
    var n := |photos|;
    EncodeJob(
      seq(n, k requires 0 <= k < n => EncodeInput(photos[k], duration / (n as real), [LoopOption])),
      CaptionFilter(text),
      outputPath)
  }

  function TotalSeconds(inputs: seq<EncodeInput>): real
  {
    if inputs == [] then 0.0 else TotalSeconds(inputs[..|inputs| - 1]) + inputs[|inputs| - 1].seconds
  }

  lemma {:induction false} TotalOfEqualShares(inputs: seq<EncodeInput>, share: real)
    requires forall k :: 0 <= k < |inputs| ==> inputs[k].seconds == share
    ensures TotalSeconds(inputs) == (|inputs| as real) * share
    decreases |inputs|
  {
    if inputs != [] {
      TotalOfEqualShares(inputs[..|inputs| - 1], share);
    }
  }

  /** With at least one photo, the per-photo durations add up to the requested duration. */
  lemma SlideshowDurationsSum(photos: seq<string>, text: string, duration: real, outputPath: string)
    requires |photos| > 0
    ensures TotalSeconds(SlideshowJob(photos, text, duration, outputPath).inputs) == duration
  {
    var n := |photos| as real;
    TotalOfEqualShares(SlideshowJob(photos, text, duration, outputPath).inputs, duration / n);
    assert n * (duration / n) == duration;
  }

  /**
   * Every step `generateVideo` asks for when nothing fails, in order: create
   * the temporary directory, fetch every photo, encode, read the output back,
   * store it under `url`, remove the temporary directory.
   */
  function Plan(cwd: string, photos: seq<string>, text: string, duration: real, startedAt: nat, url: string): (p: seq<Step>)
    ensures |p| == |photos| + 5
  {
    var tempDir := TempDir(cwd);
    var output := OutputPath(tempDir, startedAt);
    [MakeTempDir(tempDir)] + FetchSteps(cwd, photos)
      + [RunEncoder(SlideshowJob(LocalPhotos(tempDir, |photos|), text, duration, output)),
         ReadOutput(output), StoreVideo(url), RemoveTempDir(tempDir)]
  }

  /** How many steps of the plan are taken, and the error that stops it, when one does. */
  function Stop(env: UrlEnv, n: nat): (r: Option<(nat, Thrown)>)
    ensures r.None? <==>
      && env.mkdirError.None? && FirstFailure(env.fetchErrors, n).None?
      && env.encodeError.None? && env.readResult.Returned? && env.rmError.None?
    ensures r.Some? ==> 1 <= r.value.0 <= n + 5 && r.value.0 != n + 4
    ensures (r.None? || r.value.0 == n + 5) <==>
      && env.mkdirError.None? && FirstFailure(env.fetchErrors, n).None?
      && env.encodeError.None? && env.readResult.Returned?
    ensures env.mkdirError.Some? ==> r == Some((1, env.mkdirError.value))
  {
    if env.mkdirError.Some? then Some((1, env.mkdirError.value))
    else if FirstFailure(env.fetchErrors, n).Some? then Some((1 + n, FirstFailure(env.fetchErrors, n).value))
    else if env.encodeError.Some? then Some((n + 2, env.encodeError.value))
    else if env.readResult.Threw? then Some((n + 3, env.readResult.error))
    else if env.rmError.Some? then Some((n + 5, env.rmError.value))
    else None
  }

  /** The directory is removed only when every earlier step succeeded; then it is the last step. */
  lemma RemoveOnlyAfterEverythingElse(cwd: string, photos: seq<string>, text: string, duration: real, env: UrlEnv, url: string)
    requires Stop(env, |photos|).Some? && Stop(env, |photos|).value.0 < |photos| + 5
    ensures RemoveTempDir(TempDir(cwd)) !in Plan(cwd, photos, text, duration, env.startedAt, url)[..Stop(env, |photos|).value.0]
  {
    var p := Plan(cwd, photos, text, duration, env.startedAt, url);
    var c := Stop(env, |photos|).value.0;
    forall k | 0 <= k < c ensures p[k] != RemoveTempDir(TempDir(cwd)) {
      if 1 <= k < 1 + |photos| {
        assert p[k] == FetchSteps(cwd, photos)[k - 1];
      }
    }
  }

  /** The plan starts with creating the directory and ends with removing it. */
  lemma PlanBracketedByTempDir(cwd: string, photos: seq<string>, text: string, duration: real, startedAt: nat, url: string)
    ensures Plan(cwd, photos, text, duration, startedAt, url)[0] == MakeTempDir(TempDir(cwd))
    ensures Plan(cwd, photos, text, duration, startedAt, url)[|photos| + 4] == RemoveTempDir(TempDir(cwd))
    ensures Plan(cwd, photos, text, duration, startedAt, url)[|photos| + 3] == StoreVideo(url)
  {
  }

  class VideoGenerator {
    const cwd: string
    const storage: LocalStorage.LocalStorageHandler

    constructor(cwd: string, disk: map<string, LocalStorage.StoredFile>)
      ensures this.cwd == cwd && fresh(storage)
      ensures storage.storageDir == LocalStorage.StorageDirOf(cwd) && storage.files == disk
    {
      this.cwd := cwd;
      storage := new LocalStorage.LocalStorageHandler(cwd, disk);
    }

    /** `Promise.all(photos.map(...downloadFile...))`: every fetch is issued; the first failure (by index) rejects. */
    method FetchAll(photos: seq<string>, fetchErrors: map<nat, Thrown>) returns (localPhotos: seq<string>, fetches: seq<Step>, error: Option<Thrown>)
      ensures localPhotos == LocalPhotos(TempDir(cwd), |photos|)
      ensures fetches == FetchSteps(cwd, photos)
      ensures error == FirstFailure(fetchErrors, |photos|)
    {
      var tempDir := TempDir(cwd);
      localPhotos, fetches, error := [], [], None;
      var i := 0;
      while i < |photos|
        invariant 0 <= i <= |photos|
        invariant localPhotos == LocalPhotos(tempDir, i)
        invariant fetches == FetchSteps(cwd, photos[..i])
        invariant error == FirstFailure(fetchErrors, i)
      {
        var photoPath := PhotoPath(tempDir, i);
        fetches := fetches + [FetchPhoto(FetchPlan(cwd, photos[i], photoPath))];
        localPhotos := localPhotos + [photoPath];
        if error.None? && i in fetchErrors {
          error := Some(fetchErrors[i]);
        }
        i := i + 1;
      }
      assert photos[..i] == photos;
    }

    /** `createVideo`: the builder loop that adds one input per photo, then the caption filter. */
    method CreateVideo(photos: seq<string>, text: string, duration: real, outputPath: string) returns (job: EncodeJob)
      ensures job == SlideshowJob(photos, text, duration, outputPath)
    {
      var inputs: seq<EncodeInput> := [];
      var i := 0;
      while i < |photos|
        invariant 0 <= i <= |photos|
        invariant |inputs| == i
        invariant forall k :: 0 <= k < i ==> inputs[k] == EncodeInput(photos[k], duration / (|photos| as real), [LoopOption])
      {
        inputs := inputs + [EncodeInput(photos[i], duration / (|photos| as real), [LoopOption])];
        i := i + 1;
      }
      job := EncodeJob(inputs, CaptionFilter(text), outputPath);
    }

    /**
     * `generateVideo`: takes the plan's steps in order until one fails, and
     * returns exactly the URL the storage handler returned. The video reaches
     * storage only when fetching, encoding and reading back all succeeded.
     */
    method GenerateVideo(photos: seq<string>, text: string, duration: real, env: UrlEnv) returns (outcome: Outcome<string>, steps: seq<Step>)
      modifies storage
      ensures var url := LocalStorage.VideoUrl(env.savedAt);
        var plan := Plan(cwd, photos, text, duration, env.startedAt, url);
        match Stop(env, |photos|)
        case Some((taken, e)) => outcome == Threw(e) && steps == plan[..taken]
        case None => outcome == Returned(url) && steps == plan
      ensures StoreVideo(LocalStorage.VideoUrl(env.savedAt)) in steps ==>
        storage.files == old(storage.files)[LocalStorage.Join(storage.videoDir, LocalStorage.VideoFileName(env.savedAt))
          := LocalStorage.StoredFile(env.readResult.value, env.savedAt)]
      ensures StoreVideo(LocalStorage.VideoUrl(env.savedAt)) !in steps ==> storage.files == old(storage.files)
    {
      var url := LocalStorage.VideoUrl(env.savedAt);
      ghost var plan := Plan(cwd, photos, text, duration, env.startedAt, url);
      var n := |photos|;
      var tempDir := TempDir(cwd);
      var outputPath := OutputPath(tempDir, env.startedAt);
      assert plan[..1] == [MakeTempDir(tempDir)];

      steps := [MakeTempDir(tempDir)];
      if env.mkdirError.Some? {
        return Threw(env.mkdirError.value), steps;
      }

      var localPhotos, fetches, fetchError := FetchAll(photos, env.fetchErrors);
      steps := steps + fetches;
      assert steps == plan[..n + 1];
      if fetchError.Some? {
        return Threw(fetchError.value), steps;
      }

      var job := CreateVideo(localPhotos, text, duration, outputPath);
      steps := steps + [RunEncoder(job)];
      assert steps == plan[..n + 2];
      if env.encodeError.Some? {
        return Threw(env.encodeError.value), steps;
      }

      steps := steps + [ReadOutput(outputPath)];
      assert steps == plan[..n + 3];
      if env.readResult.Threw? {
        return Threw(env.readResult.error), steps;
      }
      var videoBuffer := env.readResult.value;

      var storedUrl := storage.SaveVideo(videoBuffer, env.savedAt);
      steps := steps + [StoreVideo(storedUrl), RemoveTempDir(tempDir)];
      assert steps == plan;
      if env.rmError.Some? {
        return Threw(env.rmError.value), steps;
      }
      return Returned(storedUrl), steps;
    }
  }
}
