/**
 * The `PhotoUpload` component of src/components/PhotoUpload.tsx: the shared
 * `photos` list of object URLs, which a file selection extends with the
 * accepted images and a delete button shortens, revoking blob URLs it drops.
 *
 * The list lives in the demo context; here it is a field of the component
 * object. `URL.createObjectURL` is foreign: it is a parameter giving the URL
 * it returns for a file when it is the n-th object URL created, and the
 * object counts how many it has created. `URL.revokeObjectURL` calls are recorded as a log.
 */
module PhotoUpload {
  import opened JsCommon

  /** The 10 MB size limit of a selected file, in bytes. */
  const MaxFileSize: nat := 10 * 1024 * 1024
  /** The button is disabled from this many photos on. */
  const ButtonLimit: nat := 10
  const BlobScheme := "blob:"

  /** A file of the input's `FileList`. */
  datatype SelectedFile = SelectedFile(name: string, mimeType: string, size: nat)

  /** A file is taken when its type starts with `image/` and it is at most 10 MB. */
  predicate IsValidFile(f: SelectedFile)
    ensures IsValidFile(f) <==> |f.mimeType| >= 6 && f.mimeType[..6] == "image/" && f.size <= 10_485_760
  {
    StartsWith(f.mimeType, "image/") && f.size <= MaxFileSize
  }

  /** The valid files, in selection order. */
  function ValidFiles(files: seq<SelectedFile>): (r: seq<SelectedFile>)
    ensures |r| <= |files|
    ensures forall f :: f in r <==> f in files && IsValidFile(f)
    decreases |files|
  {
    if files == [] then []
    else
      var n := |files| - 1;
      ValidFiles(files[..n]) + (if IsValidFile(files[n]) then [files[n]] else [])
  }

  /** The filter keeps the selection order: filtering two batches is filtering each in turn. */
  lemma {:induction false} ValidFilesConcat(a: seq<SelectedFile>, b: seq<SelectedFile>)
    ensures ValidFiles(a + b) == ValidFiles(a) + ValidFiles(b)
    decreases |b|
  {
    if b != [] {
      var n := |b| - 1;
      assert (a + b)[..|a + b| - 1] == a + b[..n];
      ValidFilesConcat(a, b[..n]);
    } else {
      assert a + b == a;
    }
  }

  /** A selection of valid files only is taken whole. */
  lemma {:induction false} AllValidKept(files: seq<SelectedFile>)
    requires forall i :: 0 <= i < |files| ==> IsValidFile(files[i])
    ensures ValidFiles(files) == files
    decreases |files|
  {
    if files != [] {
      var n := |files| - 1;
      AllValidKept(files[..n]);
      assert files[..n] + [files[n]] == files;
    }
  }

  /**
   * The files `handlePhotoUpload` turns into photos: none when there is no
   * file list or it is empty, else the valid ones.
   */
  function AcceptedFiles(files: Option<seq<SelectedFile>>): (r: seq<SelectedFile>)
    ensures files.None? || files.value == [] ==> r == []
    ensures files.Some? ==> r == ValidFiles(files.value)
  {
    if files.None? || files.value == [] then [] else ValidFiles(files.value)
  }

  /**
   * `files.map(file => URL.createObjectURL(file))`: one fresh URL per file, in
   * the files' order, URL i being created for file i as the `from + i`-th.
   */
  function ObjectUrls(files: seq<SelectedFile>, createObjectUrl: (SelectedFile, nat) -> string, from: nat): (r: seq<string>)
    ensures |r| == |files|
    ensures forall i :: 0 <= i < |files| ==> r[i] == createObjectUrl(files[i], from + i)
  {
    seq(|files|, i requires 0 <= i < |files| => createObjectUrl(files[i], from + i))
  }

  /** The button's `disabled` condition. */
  predicate UploadDisabled(photos: seq<string>)
    ensures |photos| < 10 ==> !UploadDisabled(photos)
    ensures |photos| >= 10 ==> UploadDisabled(photos)
  {
    |photos| >= ButtonLimit
  }

  /** Adding photos never enables a disabled button again. */
  lemma DisabledStaysDisabled(photos: seq<string>, more: seq<string>)
    requires UploadDisabled(photos)
    ensures UploadDisabled(photos + more)
  {
  }

  /**
   * The limit is the button's only: with the button still enabled (nine
   * photos, say), one selection of valid files is appended whole, so the
   * list can pass ten.
   */
  lemma LimitNotEnforced(photos: seq<string>, files: seq<SelectedFile>, createObjectUrl: (SelectedFile, nat) -> string, from: nat)
    requires !UploadDisabled(photos)
    requires forall i :: 0 <= i < |files| ==> IsValidFile(files[i])
    ensures |photos + ObjectUrls(AcceptedFiles(Some(files)), createObjectUrl, from)| == |photos| + |files|
  {
    if files != [] {
      AllValidKept(files);
    }
  }

  class PhotoUpload {
    /** The shared `photos` list. */
    var photos: seq<string>
    /** How many object URLs have been created so far. */
    var created: nat
    /** Each URL passed to `URL.revokeObjectURL`, in order. */
    var revoked: seq<string>

    constructor(photos: seq<string>)
      ensures this.photos == photos && created == 0 && revoked == []
    {
      this.photos := photos;
      created := 0;
      revoked := [];
    }

    /**
     * `handlePhotoUpload`: every accepted file gets a fresh object URL, and
     * those URLs are appended after the existing photos in selection order:
     * the k-th new photo is the URL made for the k-th accepted file.
     * No file list, an empty one, or one without a valid file changes nothing.
     */
    method HandlePhotoUpload(files: Option<seq<SelectedFile>>, createObjectUrl: (SelectedFile, nat) -> string)
      modifies this
      ensures photos == old(photos) + ObjectUrls(AcceptedFiles(files), createObjectUrl, old(created))
      ensures created == old(created) + |AcceptedFiles(files)|
      ensures AcceptedFiles(files) == [] ==> photos == old(photos)
      ensures forall k :: 0 <= k < |AcceptedFiles(files)| ==>
        photos[|old(photos)| + k] == createObjectUrl(AcceptedFiles(files)[k], old(created) + k)
      ensures revoked == old(revoked)
    {
      if files.None? || files.value == [] {
        return;
      }
      var valid := ValidFiles(files.value);
      if valid == [] {
        return;
      }
      var newPhotos := ObjectUrls(valid, createObjectUrl, created);
      created := created + |valid|;
      photos := photos + newPhotos;
    }

    /**
     * `handlePhotoDelete`: the photo at `index` is removed and the others keep
     * their order; its URL is revoked exactly when it is a `blob:` URL. The
     * index must name a photo: reading a missing one fails.
     */
    method HandlePhotoDelete(index: int)
      requires 0 <= index < |photos|
      modifies this
      ensures photos == old(photos)[..index] + old(photos)[index + 1..]
      ensures revoked == old(revoked) + (if StartsWith(old(photos)[index], BlobScheme) then [old(photos)[index]] else [])
      ensures created == old(created)
    {
      var url := photos[index];
      if StartsWith(url, BlobScheme) {
        revoked := revoked + [url];
      }
      DropIndexInRange(photos, index);
      photos := DropIndex(photos, index);
    }
  }
}
