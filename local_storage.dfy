/**
 * The storage handler of src/utils/localStorageHandler.ts: where finished
 * videos and uploaded files are written under `<cwd>/public/storage`, the
 * public URLs it hands back, the `deleteFile` path rule and the 24-hour
 * `cleanup` of the video directory.
 *
 * The file system is a map from full path to stored file; `Date.now()` and
 * the MD5 digest are parameters.
 */
module LocalStorage {
  import opened JsCommon

  type Bytes = seq<bv8>

  const OneDayMs := 24 * 60 * 60 * 1000

  /** A file on disk: its bytes and its change time in milliseconds. */
  datatype StoredFile = StoredFile(data: Bytes, ctimeMs: int)

  /** `path.join(dir, name)` for a name that needs no normalisation. */
  function Join(dir: string, name: string): string
  {
    dir + "/" + name
  }

  function StorageDirOf(cwd: string): string
  {
    cwd + "/public/storage"
  }

  function VideoFileName(ts: nat): string
  {
    "video-" + Decimal(ts) + ".mp4"
  }

  /** The URL `saveVideo` returns, relative to the public directory. */
  function VideoUrl(ts: nat): (url: string)
    ensures StartsWith(url, "/storage/videos/") && url[|"/storage/videos/"|..] == VideoFileName(ts)
  {
    StartsWithConcat("/storage/videos/", VideoFileName(ts));
    "/storage/videos/" + VideoFileName(ts)
  }

  /** Two saves at different instants get different URLs. */
  lemma VideoUrlInjective(a: nat, b: nat)
    requires VideoUrl(a) == VideoUrl(b)
    ensures a == b
  {
    assert VideoFileName(a) == VideoFileName(b);
    SameFrameSameMiddle("video-", Decimal(a), Decimal(b), ".mp4");
    DecimalInjective(a, b);
  }

  /**
   * The URL of a saved video, read relative to `<cwd>/public`, is exactly the
   * path `saveVideo` wrote.
   */
  lemma VideoUrlNamesStoredFile(cwd: string, ts: nat)
    ensures cwd + "/public" + VideoUrl(ts) == Join(Join(StorageDirOf(cwd), "videos"), VideoFileName(ts))
  {
  }

  /** `getFileUrl`: the public URL of a file stored directly under the storage directory. */
  function FileUrl(fileName: string): (url: string)
    ensures StartsWith(url, "/storage/") && url[|"/storage/"|..] == fileName
  {
    StartsWithConcat("/storage/", fileName);
    "/storage/" + fileName
  }

  /**
   * The URL `getFileUrl` gives a name, read relative to `<cwd>/public`, is the
   * path under which `saveUploadedFile` stores that name.
   */
  lemma FileUrlNamesStoredFile(cwd: string, name: string)
    ensures cwd + "/public" + FileUrl(name) == Join(StorageDirOf(cwd), name)
  {
  }

  function StripTrailingSlashes(p: string): (r: string)
    ensures r <= p
    ensures r == [] || r[|r| - 1] != '/'
  {
    if |p| > 0 && p[|p| - 1] == '/' then StripTrailingSlashes(p[..|p| - 1]) else p
  }

  /** The part of `p` after its last `/`. */
  function LastSegment(p: string): (r: string)
    ensures '/' !in r
    ensures |r| <= |p| && r == p[|p| - |r|..]
  {
    if p == [] || p[|p| - 1] == '/' then []
    else LastSegment(p[..|p| - 1]) + [p[|p| - 1]]
  }

  /** The index of the last `.` in `s`, or -1. */
  function LastDot(s: string): (k: int)
    ensures -1 <= k < |s|
    ensures k >= 0 ==> s[k] == '.'
    ensures forall j :: k < j < |s| ==> s[j] != '.'
  {
    if s == [] then -1
    else if s[|s| - 1] == '.' then |s| - 1
    else LastDot(s[..|s| - 1])
  }

  /**
   * `path.extname` (POSIX): from the last `.` of the last path segment to its
   * end; empty when there is no dot, when the segment starts with its only
   * leading dot, or when the segment is `..`.
   */
  function Extname(p: string): (r: string)
    ensures r == [] || (r[0] == '.' && '/' !in r && '.' !in r[1..])
  {
    var seg := LastSegment(StripTrailingSlashes(p));
    var k := LastDot(seg);
    if k <= 0 || seg == ".." then [] else seg[k..]
  }

  lemma {:induction false} LastSegmentNoSlash(p: string)
    requires '/' !in p
    ensures LastSegment(p) == p
    decreases |p|
  {
    if p != [] {
      assert '/' !in p[..|p| - 1];
      LastSegmentNoSlash(p[..|p| - 1]);
    }
  }

  lemma {:induction false} LastDotBeforeDotless(pre: string, ext: string)
    requires '.' !in ext
    ensures LastDot(pre + "." + ext) == |pre|
    decreases |ext|
  {
    var s := pre + "." + ext;
    if ext != [] {
      var e := ext[..|ext| - 1];
      assert '.' !in e;
      assert s[..|s| - 1] == pre + "." + e;
      assert s[|s| - 1] == ext[|ext| - 1];
      LastDotBeforeDotless(pre, e);
    } else {
      assert s[|s| - 1] == '.';
    }
  }

  lemma NameHasNoSlash(base: string, ext: string)
    requires '/' !in base && '/' !in ext
    ensures '/' !in base + "." + ext
  {
    var name := base + "." + ext;
    forall j | 0 <= j < |name| ensures name[j] != '/' {
      if j < |base| { assert name[j] == base[j]; }
      else if j > |base| { assert name[j] == ext[j - |base| - 1]; }
    }
  }

  /** The extension of a plain file name is its last dot and what follows. */
  lemma ExtnameOfFileName(base: string, ext: string)
    requires base != [] && '/' !in base
    requires ext != [] && '.' !in ext && '/' !in ext
    ensures Extname(base + "." + ext) == "." + ext
  {
    var name := base + "." + ext;
    NameHasNoSlash(base, ext);
    assert name[|name| - 1] in name;
    assert StripTrailingSlashes(name) == name;
    LastSegmentNoSlash(name);
    LastDotBeforeDotless(base, ext);
    assert |name| != |".."|;
    assert name[|base|..] == "." + ext;
  }

  /** `saveUploadedFile`'s name: the content digest followed by the original extension. */
  function UploadFileName(digest: string, originalName: string): (name: string)
    ensures StartsWith(name, digest) && name[|digest|..] == Extname(originalName)
    ensures '/' !in digest ==> '/' !in name
  {
    StartsWithConcat(digest, Extname(originalName));
    digest + Extname(originalName)
  }

  /** `filePath.replace(/^\//, '')`: at most one leading slash goes. */
  function StripLeadingSlash(p: string): (r: string)
    ensures |p| > 0 && p[0] == '/' ==> r == p[1..]
    ensures !(|p| > 0 && p[0] == '/') ==> r == p
  {
    if |p| > 0 && p[0] == '/' then p[1..] else p
  }

  /** The path `deleteFile` unlinks. */
  function DeleteTarget(storageDir: string, filePath: string): (target: string)
    ensures StartsWith(target, storageDir + "/")
    ensures target[|storageDir + "/"|..] == StripLeadingSlash(filePath)
  {
    StartsWithConcat(storageDir + "/", StripLeadingSlash(filePath));
    storageDir + "/" + StripLeadingSlash(filePath)
  }

  /**
   * `deleteFile` given the URL of an uploaded file aims at `storage/<name>`
   * inside the storage directory, not at the file `saveUploadedFile` wrote.
   */
  lemma DeleteOfFileUrlMissesUpload(storageDir: string, fileName: string)
    ensures DeleteTarget(storageDir, FileUrl(fileName)) == Join(storageDir, "storage/" + fileName)
    ensures DeleteTarget(storageDir, FileUrl(fileName)) != Join(storageDir, fileName)
  {
    var url := FileUrl(fileName);
    assert url[0] == '/';
    assert url[1..] == "storage/" + fileName;
    assert |Join(storageDir, "storage/" + fileName)| != |Join(storageDir, fileName)|;
  }

  /** A leading slash is optional: `/name` and `name` delete the same file. */
  lemma DeleteTargetIgnoresOneSlash(storageDir: string, name: string)
    requires !(|name| > 0 && name[0] == '/')
    ensures DeleteTarget(storageDir, "/" + name) == DeleteTarget(storageDir, name)
  {
    assert ("/" + name)[1..] == name;
  }

  /** An entry listed by `readdir(dir)`: a path directly inside `dir`. */
  predicate InDir(dir: string, path: string)
    ensures InDir(dir, path) ==> StartsWith(path, dir + "/") && path == Join(dir, path[|dir| + 1..])
  {
    StartsWith(path, dir + "/") && '/' !in path[|dir| + 1..]
  }

  /** A slash-free name joined to a directory is one of its entries. */
  lemma JoinInDir(dir: string, name: string)
    requires '/' !in name
    ensures InDir(dir, Join(dir, name))
  {
    StartsWithConcat(dir + "/", name);
    assert Join(dir, name)[|dir| + 1..] == name;
  }

  /** A saved video is an entry of the video directory, so `cleanup` considers it. */
  lemma SavedVideoInDir(videoDir: string, ts: nat)
    ensures InDir(videoDir, Join(videoDir, VideoFileName(ts)))
  {
    var name := VideoFileName(ts);
    var digits := Decimal(ts);
    forall j | 0 <= j < |name| ensures name[j] != '/' {
      if 6 <= j < 6 + |digits| { assert name[j] == digits[j - 6]; }
    }
    JoinInDir(videoDir, VideoFileName(ts));
  }

  /** `now - stats.ctimeMs > ONE_DAY` */
  predicate Expired(f: StoredFile, now: int)
    ensures Expired(f, now) <==> f.ctimeMs < now - 86_400_000
  {
    now - f.ctimeMs > OneDayMs
  }

  /** The disk after `cleanup`: every expired entry of `dir` is gone, everything else is as it was. */
  function Swept(files: map<string, StoredFile>, dir: string, now: int): (r: map<string, StoredFile>)
    ensures forall p :: p in r <==> p in files && !(InDir(dir, p) && Expired(files[p], now))
    ensures forall p :: p in r ==> r[p] == files[p]
  {
    map p | p in files && !(InDir(dir, p) && Expired(files[p], now)) :: files[p]
  }

  /** A file exactly one day old, or younger, survives `cleanup`. */
  lemma CleanupKeepsDayOldFiles(files: map<string, StoredFile>, dir: string, now: int, p: string)
    requires p in files && now - files[p].ctimeMs <= OneDayMs
    ensures p in Swept(files, dir, now) && Swept(files, dir, now)[p] == files[p]
  {
  }

  /** Sweeping twice at the same instant removes nothing more. */
  lemma SweptIdempotent(files: map<string, StoredFile>, dir: string, now: int)
    ensures Swept(Swept(files, dir, now), dir, now) == Swept(files, dir, now)
  {
  }

  class LocalStorageHandler {
    const storageDir: string
    const videoDir: string
    var files: map<string, StoredFile>

    /** The directories derive from the working directory; `disk` is what is already on it. */
    constructor(cwd: string, disk: map<string, StoredFile>)
      ensures storageDir == StorageDirOf(cwd) && videoDir == Join(storageDir, "videos")
      ensures files == disk
    {
      storageDir := StorageDirOf(cwd);
      videoDir := Join(StorageDirOf(cwd), "videos");
      files := disk;
    }

    /** `saveVideo`: writes `VIDEO_DIR/video-<now>.mp4` and returns its public URL. */
    method SaveVideo(videoBuffer: Bytes, now: nat) returns (url: string)
      modifies this
      ensures files == old(files)[Join(videoDir, VideoFileName(now)) := StoredFile(videoBuffer, now)]
      ensures url == VideoUrl(now)
    {
      var fileName := VideoFileName(now);
      files := files[Join(videoDir, fileName) := StoredFile(videoBuffer, now)];
      url := "/storage/videos/" + fileName;
    }

    /** `cleanup`: unlinks exactly the entries of the video directory older than one day. */
    method Cleanup(now: int)
      modifies this
      ensures files == Swept(old(files), videoDir, now)
    {
      var entries := set p | p in files && InDir(videoDir, p);
      var todo := entries;
      while todo != {}
        invariant todo <= entries
        invariant forall p :: p in entries ==> p in old(files) && InDir(videoDir, p)
        invariant forall p :: p in files <==>
          p in old(files) && !(p in entries && p !in todo && Expired(old(files)[p], now))
        invariant forall p :: p in files ==> files[p] == old(files)[p]
        decreases todo
      {
        var p :| p in todo;
        if now - files[p].ctimeMs > OneDayMs {
          files := files - {p};
        }
        todo := todo - {p};
      }
    }

    /** `saveUploadedFile`: names the file by its digest and extension and returns `getFileUrl` of that name. */
    method SaveUploadedFile(file: Bytes, originalName: string, md5: Bytes -> string, now: int) returns (url: string)
      modifies this
      ensures files == old(files)[Join(storageDir, UploadFileName(md5(file), originalName)) := StoredFile(file, now)]
      ensures url == FileUrl(UploadFileName(md5(file), originalName))
    {
      var fileName := md5(file) + Extname(originalName);
      files := files[Join(storageDir, fileName) := StoredFile(file, now)];
      url := "/storage/" + fileName;
    }

    /** `deleteFile`: unlinks the target, or rejects (ENOENT) when nothing is there. */
    method DeleteFile(filePath: string) returns (deleted: bool)
      modifies this
      ensures deleted == (DeleteTarget(storageDir, filePath) in old(files))
      ensures files == old(files) - {DeleteTarget(storageDir, filePath)}
    {
      var absolutePath := Join(storageDir, StripLeadingSlash(filePath));
      deleted := absolutePath in files;
      if deleted {
        files := files - {absolutePath};
      }
    }
  }

  /** Equal contents with equal extensions are stored under the same name and URL. */
  lemma UploadNameDependsOnContentAndExtension(md5: Bytes -> string, a: Bytes, nameA: string, b: Bytes, nameB: string)
    requires a == b && Extname(nameA) == Extname(nameB)
    ensures UploadFileName(md5(a), nameA) == UploadFileName(md5(b), nameB)
  {
  }
}
