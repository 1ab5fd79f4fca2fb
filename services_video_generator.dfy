/**
 * The service-level generator of src/services/videoGenerator.ts: it takes
 * photos as `data:image/<ext>;base64,<data>` URLs, validates the request in a
 * fixed order, substitutes a default duration, writes one temporary image per
 * photo, hands the images to the encoder, unlinks the images and reports a
 * `{success, videoUrl?, error?}` record. Nothing escapes as an exception.
 *
 * The encoder, `uuidv4()` and the file system are foreign: their results are
 * parameters (`ServiceEnv`), and what the generator asks of them is returned
 * as an ordered list of steps.
 */
module ServicesVideoGenerator {
  import opened JsCommon

  const MaxTextLength := 500
  const MinDuration: real := 5.0
  const DefaultDuration: real := 15.0
  const TempPath := "temp"
  const VideoPath := "public/videos"
  const ImagePrefix := "data:image/"
  const Base64Marker := ";base64,"

  datatype VideoGeneratorOptions = VideoGeneratorOptions(photos: seq<string>, text: string, duration: real)

  /** The `VideoGenerationResult` record: `videoUrl` and `error` are optional fields. */
  datatype VideoGenerationResult = VideoGenerationResult(success: bool, videoUrl: Option<string>, error: Option<string>)

  function Succeeded(url: string): VideoGenerationResult { VideoGenerationResult(true, Some(url), None) }
  function Failed(message: string): VideoGenerationResult { VideoGenerationResult(false, None, Some(message)) }

  /** What the generator asks of the outside world, in order. */
  datatype Step =
    | WriteImage(path: string, base64: string)
    | Encode(inputs: seq<string>, seconds: real, output: string)
    | Unlink(path: string)

  /**
   * The answers of the foreign calls: the `uuidv4()` used for the i-th photo and
   * for the output, the `writeFile`/`unlink` calls that reject (by photo index,
   * with the error's message) and the encoder's `'error'` event, if any.
   */
  datatype ServiceEnv = ServiceEnv(
    imageId: nat -> string,
    outputId: string,
    writeErrors: map<nat, string>,
    encodeError: Option<string>,
    unlinkErrors: map<nat, string>)

  /**
   * `validateInput`: the message of the first check that fails, in the
   * source's order (photos, blank text, text length, photo prefix), or `None`.
   */
  function ValidateInput(o: VideoGeneratorOptions): (r: Option<string>)
    ensures r == None <==>
      && |o.photos| > 0 && !TrimsToEmpty(o.text) && |o.text| <= MaxTextLength
      && forall k :: 0 <= k < |o.photos| ==> StartsWith(o.photos[k], ImagePrefix)
    ensures |o.photos| == 0 ==> r == Some("No photos provided")
    ensures |o.photos| > 0 && TrimsToEmpty(o.text) ==> r == Some("Text cannot be empty")
    ensures |o.photos| > 0 && !TrimsToEmpty(o.text) && |o.text| > MaxTextLength ==> r == Some("Text length exceeds limit")
    ensures (&& |o.photos| > 0 && !TrimsToEmpty(o.text) && |o.text| <= MaxTextLength
             && exists k :: 0 <= k < |o.photos| && !StartsWith(o.photos[k], ImagePrefix))
      ==> r == Some("Invalid photo format")
    ensures r.Some? ==> r.value in {"No photos provided", "Text cannot be empty", "Text length exceeds limit", "Invalid photo format"}
  {
    if |o.photos| == 0 then Some("No photos provided")
    else if TrimsToEmpty(o.text) then Some("Text cannot be empty")
    else if |o.text| > MaxTextLength then Some("Text length exceeds limit")
    else if exists k :: 0 <= k < |o.photos| && !StartsWith(o.photos[k], ImagePrefix) then Some("Invalid photo format")
    else None
  }

  /** `validateDuration`: anything below the minimum is replaced by the default. */
  function ValidateDuration(d: real): (r: real)
    ensures r >= MinDuration
    ensures d >= MinDuration ==> r == d
    ensures d < MinDuration ==> r == DefaultDuration
  {
    if d < MinDuration then DefaultDuration else d
  }

  lemma ValidateDurationIdempotent(d: real)
    ensures ValidateDuration(ValidateDuration(d)) == ValidateDuration(d)
  {
  }

  predicate IsAsciiLetter(c: char)
  {
    ('A' <= c <= 'Z') || ('a' <= c <= 'z')
  }

  predicate AllLetters(s: string)
  {
    forall k :: 0 <= k < |s| ==> IsAsciiLetter(s[k])
  }

  predicate NoLineTerminator(s: string)
  {
    forall k :: 0 <= k < |s| ==> !IsLineTerminator(s[k])
  }

  /** The length of the run of ASCII letters at the start of `s`. */
  function LetterRun(s: string): (n: nat)
    ensures n <= |s|
    ensures AllLetters(s[..n])
    ensures n < |s| ==> !IsAsciiLetter(s[n])
  {
    if s == [] || !IsAsciiLetter(s[0]) then 0
    else
      var n := 1 + LetterRun(s[1..]);
      assert s[..n] == [s[0]] + s[1..][..n - 1];
      n
  }

  lemma {:induction false} LetterRunOfLettersThenOther(letters: string, rest: string)
    requires AllLetters(letters)
    requires rest != [] && !IsAsciiLetter(rest[0])
    ensures LetterRun(letters + rest) == |letters|
    decreases |letters|
  {
    var s := letters + rest;
    if letters == [] {
      assert s == rest;
    } else {
      assert s[0] == letters[0] && IsAsciiLetter(s[0]);
      assert s[1..] == letters[1..] + rest;
      assert AllLetters(letters[1..]) by {
        forall k | 0 <= k < |letters| - 1 ensures IsAsciiLetter(letters[1..][k]) {
          assert letters[1..][k] == letters[k + 1];
        }
      }
      LetterRunOfLettersThenOther(letters[1..], rest);
      assert LetterRun(s) == 1 + LetterRun(s[1..]);
    }
  }

  /** The data URL built from an extension and a payload. */
  function DataUrl(ext: string, data: string): string
  {
    ImagePrefix + ext + Base64Marker + data
  }

  /**
   * The match of `/^data:image\/([A-Za-z]+);base64,(.+)$/` in `saveBase64AsImage`:
   * the extension and the payload, or `None` when the pattern does not match.
   */
  function ParseDataUrl(s: string): (r: Option<(string, string)>)
    ensures r.Some? ==> StartsWith(s, ImagePrefix)
    ensures r.Some? ==>
      && s == DataUrl(r.value.0, r.value.1)
      && |r.value.0| > 0 && AllLetters(r.value.0)
      && |r.value.1| > 0 && NoLineTerminator(r.value.1)
  {
    if !StartsWith(s, ImagePrefix) then None
    else
      var after := s[|ImagePrefix|..];
      var k := LetterRun(after);
      var rest := after[k..];
      if k == 0 || !StartsWith(rest, Base64Marker) then None
      else
        var data := rest[|Base64Marker|..];
        if data == [] || !NoLineTerminator(data) then None
        else
          assert s == ImagePrefix + after[..k] + Base64Marker + data by {
            assert s == s[..|ImagePrefix|] + after;
            assert after == after[..k] + rest;
            assert rest == rest[..|Base64Marker|] + data;
          }
          Some((after[..k], data))
  }

  /** Parsing a well-formed data URL gives back its extension and payload. */
  lemma DataUrlRoundTrip(ext: string, data: string)
    requires |ext| > 0 && AllLetters(ext)
    requires |data| > 0 && NoLineTerminator(data)
    ensures ParseDataUrl(DataUrl(ext, data)) == Some((ext, data))
  {
    var s := DataUrl(ext, data);
    StartsWithConcat(ImagePrefix, ext + Base64Marker + data);
    assert s == ImagePrefix + (ext + Base64Marker + data);
    var after := s[|ImagePrefix|..];
    assert after == ext + (Base64Marker + data);
    LetterRunOfLettersThenOther(ext, Base64Marker + data);
    assert after[..|ext|] == ext;
    assert after[|ext|..] == Base64Marker + data;
    StartsWithConcat(Base64Marker, data);
    assert (Base64Marker + data)[|Base64Marker|..] == data;
  }

  /** `path.join(TEMP_PATH, `${uuid}.${extension}`)`: the file `<id>.<ext>` inside the temporary directory. */
  function TempImagePath(id: string, ext: string): (p: string)
    ensures StartsWith(p, TempPath + "/") && p[|TempPath + "/"|..] == id + "." + ext
  {
    StartsWithConcat(TempPath + "/", id + "." + ext);
    TempPath + "/" + (id + "." + ext)
  }

  function OutputFilename(id: string): string
  {
    "video-" + id + ".mp4"
  }

  /** `path.join(VIDEO_PATH, outputFilename)`: the output file inside the public video directory. */
  function OutputPath(id: string): (p: string)
    ensures StartsWith(p, VideoPath + "/") && p[|VideoPath + "/"|..] == OutputFilename(id)
  {
    StartsWithConcat(VideoPath + "/", OutputFilename(id));
    VideoPath + "/" + OutputFilename(id)
  }

  /** The URL reported on success: the output file under `/videos/`. */
  function VideoUrl(id: string): (url: string)
    ensures StartsWith(url, "/videos/") && url[|"/videos/"|..] == OutputFilename(id)
  {
    StartsWithConcat("/videos/", OutputFilename(id));
    "/videos/" + OutputFilename(id)
  }

  /**
   * The reported URL names the file the encoder wrote: the public directory
   * is served at the site root, so `/videos/<name>` is `public/videos/<name>`.
   */
  lemma VideoUrlNamesOutput(id: string)
    ensures "public" + VideoUrl(id) == OutputPath(id)
  {
  }

  /** The match of one photo: its extension and payload, or `None`. */
  type Parsed = Option<(string, string)>

  /** The match of each photo, in input order. */
  function ParseAll(photos: seq<string>): (r: seq<Parsed>)
    ensures |r| == |photos|
    decreases |photos|
  {
    if photos == [] then [] else ParseAll(photos[..|photos| - 1]) + [ParseDataUrl(photos[|photos| - 1])]
  }

  /** Entry k of the parsed list is the match of photo k. */
  lemma {:induction false} ParseAllAt(photos: seq<string>, k: nat)
    requires k < |photos|
    ensures ParseAll(photos)[k] == ParseDataUrl(photos[k])
    decreases |photos|
  {
    var n := |photos| - 1;
    if k < n {
      ParseAllAt(photos[..n], k);
      assert photos[..n][k] == photos[k];
    }
  }

  /** Every photo matched the pattern. */
  predicate AllParse(parsed: seq<Parsed>)
    decreases |parsed|
  {
    parsed == [] || (AllParse(parsed[..|parsed| - 1]) && parsed[|parsed| - 1].Some?)
  }

  /** `AllParse` holds exactly when no entry is a failed match. */
  lemma {:induction false} AllParseEvery(parsed: seq<Parsed>)
    ensures AllParse(parsed) <==> forall k :: 0 <= k < |parsed| ==> parsed[k].Some?
    decreases |parsed|
  {
    if parsed != [] {
      var n := |parsed| - 1;
      AllParseEvery(parsed[..n]);
      assert forall k :: 0 <= k < n ==> parsed[..n][k] == parsed[k];
    }
  }

  /** The write `saveBase64AsImage` issues for one photo: none when the pattern did not match. */
  function WriteFor(parsed: Parsed, id: string): (w: seq<Step>)
    ensures |w| <= 1
    ensures parsed.None? <==> w == []
    ensures parsed.Some? ==> w == [WriteImage(TempImagePath(id, parsed.value.0), parsed.value.1)]
  {
    match parsed
    case None => []
    case Some((ext, data)) => [WriteImage(TempImagePath(id, ext), data)]
  }

  /**
   * The `writeFile` calls issued by `Promise.all(photos.map(saveBase64AsImage))`:
   * one per photo that parses, in input order, the i-th photo's named by the i-th identifier.
   */
  function ImageWrites(parsed: seq<Parsed>, imageId: nat -> string): (w: seq<Step>)
    ensures |w| <= |parsed|
    ensures forall k :: 0 <= k < |w| ==> w[k].WriteImage?
    decreases |parsed|
  {
    if parsed == [] then []
    else
      var i := |parsed| - 1;
      ImageWrites(parsed[..i], imageId) + WriteFor(parsed[i], imageId(i))
  }

  /** The temporary image paths, in input order, when every photo parses. */
  function ImagePaths(parsed: seq<Parsed>, imageId: nat -> string): (p: seq<string>)
    requires AllParse(parsed)
    ensures |p| == |parsed|
    decreases |parsed|
  {
    if parsed == [] then []
    else
      var i := |parsed| - 1;
      ImagePaths(parsed[..i], imageId) + [TempImagePath(imageId(i), parsed[i].value.0)]
  }

  /** One more photo adds its own write, its own parse check and its own path. */
  lemma ExtendPrefix(parsed: seq<Parsed>, imageId: nat -> string, i: nat)
    requires i < |parsed|
    ensures ImageWrites(parsed[..i + 1], imageId) == ImageWrites(parsed[..i], imageId) + WriteFor(parsed[i], imageId(i))
    ensures AllParse(parsed[..i + 1]) <==> AllParse(parsed[..i]) && parsed[i].Some?
    ensures AllParse(parsed[..i + 1]) ==>
      ImagePaths(parsed[..i + 1], imageId) == ImagePaths(parsed[..i], imageId) + [TempImagePath(imageId(i), parsed[i].value.0)]
  {
    var pre := parsed[..i + 1];
    assert pre[..i] == parsed[..i];
    assert pre[i] == parsed[i];
  }

  /**
   * How the image-saving fan-out settles: a parse failure rejects before any
   * file I/O can, so its message wins; otherwise the first failing write (by index).
   */
  function SaveError(parsed: seq<Parsed>, writeErrors: map<nat, string>): (e: Option<string>)
    ensures !AllParse(parsed) ==> e == Some("Invalid base64 image format")
    ensures AllParse(parsed) ==> e == FirstFailure(writeErrors, |parsed|)
  {
    if !AllParse(parsed) then Some("Invalid base64 image format")
    else FirstFailure(writeErrors, |parsed|)
  }

  function Unlinks(paths: seq<string>): (u: seq<Step>)
    ensures |u| == |paths|
    ensures forall k :: 0 <= k < |u| ==> u[k] == Unlink(paths[k])
  {
    seq(|paths|, k requires 0 <= k < |paths| => Unlink(paths[k]))
  }

  /**
   * `Promise.all(photos.map(saveBase64AsImage))`, given each photo's match:
   * every call starts, so every photo that parses gets its write, in input
   * order; the temporary paths are returned only when the whole fan-out
   * succeeds.
   */
  method SaveImages(all: seq<Parsed>, env: ServiceEnv) returns (files: seq<string>, writes: seq<Step>, error: Option<string>)
    ensures writes == ImageWrites(all, env.imageId)
    ensures error == SaveError(all, env.writeErrors)
    ensures error.None? ==> AllParse(all) && files == ImagePaths(all, env.imageId)
  {
    var parseFailed := false;
    var writeError: Option<string> := None;
    files, writes := [], [];
    var i := 0;
    while i < |all|
      invariant 0 <= i <= |all|
      invariant writes == ImageWrites(all[..i], env.imageId)
      invariant parseFailed <==> !AllParse(all[..i])
      invariant !parseFailed ==> files == ImagePaths(all[..i], env.imageId)
      invariant writeError == FirstFailure(env.writeErrors, i)
    {
      ExtendPrefix(all, env.imageId, i);
      var parsed := all[i];
      if parsed.None? {
        parseFailed := true;
      } else {
        var path := TempImagePath(env.imageId(i), parsed.value.0);
        writes := writes + [WriteImage(path, parsed.value.1)];
        files := files + [path];
      }
      if writeError.None? && i in env.writeErrors {
        writeError := Some(env.writeErrors[i]);
      }
      i := i + 1;
    }
    assert all[..i] == all;
    error := if parseFailed then Some("Invalid base64 image format") else writeError;
  }

  /** `Promise.all(imageFiles.map(file => fs.unlink(file)))`: one unlink per image; the first failure (by index) is reported. */
  method UnlinkAll(files: seq<string>, unlinkErrors: map<nat, string>) returns (unlinks: seq<Step>, error: Option<string>)
    ensures unlinks == Unlinks(files)
    ensures error == FirstFailure(unlinkErrors, |files|)
  {
    error := None;
    unlinks := [];
    var j := 0;
    while j < |files|
      invariant 0 <= j <= |files|
      invariant unlinks == Unlinks(files[..j])
      invariant error == FirstFailure(unlinkErrors, j)
    {
      unlinks := unlinks + [Unlink(files[j])];
      if error.None? && j in unlinkErrors {
        error := Some(unlinkErrors[j]);
      }
      j := j + 1;
    }
    assert files[..j] == files;
  }

  /**
   * The part of `generateVideo` after validation: one write per parsed photo
   * in input order; the encoder is started only when every image was saved,
   * with the images in input order and `-t` set to `duration`; the images are
   * unlinked only after the encoder succeeded; a failure of any step becomes
   * `success: false` with the error's message and no `videoUrl`.
   */
  method Produce(parsed: seq<Parsed>, duration: real, env: ServiceEnv) returns (result: VideoGenerationResult, steps: seq<Step>)
    ensures SaveError(parsed, env.writeErrors).Some? ==>
      && result == Failed(SaveError(parsed, env.writeErrors).value)
      && steps == ImageWrites(parsed, env.imageId)
    ensures SaveError(parsed, env.writeErrors).None? ==>
      var files := ImagePaths(parsed, env.imageId);
      var encode := Encode(files, duration, OutputPath(env.outputId));
      && (env.encodeError.Some? ==> result == Failed(env.encodeError.value) && steps == ImageWrites(parsed, env.imageId) + [encode])
      && (env.encodeError.None? ==> steps == ImageWrites(parsed, env.imageId) + [encode] + Unlinks(files))
      && (env.encodeError.None? && FirstFailure(env.unlinkErrors, |files|).Some? ==>
            result == Failed(FirstFailure(env.unlinkErrors, |files|).value))
      && (env.encodeError.None? && FirstFailure(env.unlinkErrors, |files|).None? ==>
            result == Succeeded(VideoUrl(env.outputId)))
  {
    var imageFiles, writes, saveError := SaveImages(parsed, env);
    steps := writes;
    if saveError.Some? {
      return Failed(saveError.value), steps;
    }

    // imageFiles.forEach(file => command.input(file))
    var inputs: seq<string> := [];
    var j := 0;
    while j < |imageFiles|
      invariant 0 <= j <= |imageFiles|
      invariant inputs == imageFiles[..j]
    {
      inputs := inputs + [imageFiles[j]];
      j := j + 1;
    }
    assert inputs == imageFiles;
    steps := steps + [Encode(inputs, duration, OutputPath(env.outputId))];
    if env.encodeError.Some? {
      return Failed(env.encodeError.value), steps;
    }

    var unlinks, unlinkError := UnlinkAll(imageFiles, env.unlinkErrors);
    steps := steps + unlinks;
    if unlinkError.Some? {
      return Failed(unlinkError.value), steps;
    }
    return Succeeded(VideoUrl(env.outputId)), steps;
  }

  /**
   * `generateVideo`: validation and duration substitution come first and
   * touch nothing; a failed validation reports its message with no step
   * taken; otherwise every photo is matched and the rest runs with the
   * validated duration.
   */
  method GenerateVideo(o: VideoGeneratorOptions, env: ServiceEnv) returns (result: VideoGenerationResult, steps: seq<Step>)
    ensures ValidateInput(o).Some? ==> result == Failed(ValidateInput(o).value) && steps == []
    ensures ValidateInput(o).None? && SaveError(ParseAll(o.photos), env.writeErrors).Some? ==>
      && result == Failed(SaveError(ParseAll(o.photos), env.writeErrors).value)
      && steps == ImageWrites(ParseAll(o.photos), env.imageId)
    ensures ValidateInput(o).None? && SaveError(ParseAll(o.photos), env.writeErrors).None? ==>
      var files := ImagePaths(ParseAll(o.photos), env.imageId);
      var encode := Encode(files, ValidateDuration(o.duration), OutputPath(env.outputId));
      && (env.encodeError.Some? ==> result == Failed(env.encodeError.value) && steps == ImageWrites(ParseAll(o.photos), env.imageId) + [encode])
      && (env.encodeError.None? ==> steps == ImageWrites(ParseAll(o.photos), env.imageId) + [encode] + Unlinks(files))
      && (env.encodeError.None? && FirstFailure(env.unlinkErrors, |files|).Some? ==>
            result == Failed(FirstFailure(env.unlinkErrors, |files|).value))
      && (env.encodeError.None? && FirstFailure(env.unlinkErrors, |files|).None? ==>
            result == Succeeded(VideoUrl(env.outputId)))
  {
    var invalid := ValidateInput(o);
    if invalid.Some? {
      return Failed(invalid.value), [];
    }
    var duration := ValidateDuration(o.duration);
    var parsed := ParseAll(o.photos);
    result, steps := Produce(parsed, duration, env);
  }

  /** An empty photo list is rejected with the first message, whatever the text and photos. */
  lemma EmptyPhotosCheckedFirst(text: string, duration: real)
    ensures ValidateInput(VideoGeneratorOptions([], text, duration)) == Some("No photos provided")
  {
  }

  /** A text of exactly the maximum length passes the length check. */
  lemma TextAtLimitAccepted(o: VideoGeneratorOptions)
    requires |o.photos| > 0 && !TrimsToEmpty(o.text) && |o.text| == MaxTextLength
    requires forall k :: 0 <= k < |o.photos| ==> StartsWith(o.photos[k], ImagePrefix)
    ensures ValidateInput(o) == None
  {
  }

  /** The photo-format check is reached only when the text checks pass. */
  lemma PhotoFormatAfterTextChecks(o: VideoGeneratorOptions)
    requires ValidateInput(o) == Some("Invalid photo format")
    ensures |o.photos| > 0 && !TrimsToEmpty(o.text) && |o.text| <= MaxTextLength
    ensures exists k :: 0 <= k < |o.photos| && !StartsWith(o.photos[k], ImagePrefix)
  {
  }

  /** When every photo parses there is exactly one image write per photo, in input order. */
  lemma {:induction false} OneWritePerPhoto(parsed: seq<Parsed>, imageId: nat -> string)
    requires AllParse(parsed)
    ensures |ImageWrites(parsed, imageId)| == |parsed|
    ensures forall k :: 0 <= k < |parsed| ==>
      parsed[k].Some? && ImageWrites(parsed, imageId)[k] == WriteImage(ImagePaths(parsed, imageId)[k], parsed[k].value.1)
    decreases |parsed|
  {
    AllParseEvery(parsed);
    if parsed != [] {
      var i := |parsed| - 1;
      var pre := parsed[..i];
      ExtendPrefix(parsed, imageId, i);
      assert parsed[..i + 1] == parsed;
      OneWritePerPhoto(pre, imageId);
      var w := ImageWrites(parsed, imageId);
      var p := ImagePaths(parsed, imageId);
      forall k | 0 <= k < |parsed| ensures parsed[k].Some? && w[k] == WriteImage(p[k], parsed[k].value.1) {
        if k < i {
          assert w[k] == ImageWrites(pre, imageId)[k];
          assert p[k] == ImagePaths(pre, imageId)[k];
          assert pre[k] == parsed[k];
        }
      }
    }
  }

  /** Path k of the saved images is photo k's own temporary file. */
  lemma {:induction false} ImagePathAt(parsed: seq<Parsed>, imageId: nat -> string, k: nat)
    requires AllParse(parsed) && k < |parsed|
    ensures parsed[k].Some? && ImagePaths(parsed, imageId)[k] == TempImagePath(imageId(k), parsed[k].value.0)
    decreases |parsed|
  {
    var i := |parsed| - 1;
    ExtendPrefix(parsed, imageId, i);
    assert parsed[..i + 1] == parsed;
    if k < i {
      ImagePathAt(parsed[..i], imageId, k);
      assert parsed[..i][k] == parsed[k];
    }
  }

  /**
   * With pairwise different identifiers of one length (as `uuidv4()` gives),
   * no two photos are written to the same temporary file.
   */
  lemma ImagePathsDistinct(parsed: seq<Parsed>, imageId: nat -> string)
    requires AllParse(parsed)
    requires forall i, j :: 0 <= i < j < |parsed| ==> imageId(i) != imageId(j) && |imageId(i)| == |imageId(j)|
    ensures forall i, j :: 0 <= i < j < |parsed| ==> ImagePaths(parsed, imageId)[i] != ImagePaths(parsed, imageId)[j]
  {
    var p := ImagePaths(parsed, imageId);
    forall i, j | 0 <= i < j < |parsed| ensures p[i] != p[j] {
      ImagePathAt(parsed, imageId, i);
      ImagePathAt(parsed, imageId, j);
      if p[i] == p[j] {
        TempImagePathsDistinct(imageId(i), parsed[i].value.0, imageId(j), parsed[j].value.0);
      }
    }
  }

  /** Distinct identifiers give distinct temporary paths. */
  lemma TempImagePathsDistinct(id1: string, ext1: string, id2: string, ext2: string)
    requires TempImagePath(id1, ext1) == TempImagePath(id2, ext2)
    requires |id1| == |id2|
    ensures id1 == id2
  {
    var p := TempPath + "/";
    var s := TempImagePath(id1, ext1);
    assert s == p + (id1 + "." + ext1);
    assert TempImagePath(id2, ext2) == p + (id2 + "." + ext2);
    assert id1 == s[|p|..|p| + |id1|];
    assert id2 == s[|p|..|p| + |id2|];
  }
}
