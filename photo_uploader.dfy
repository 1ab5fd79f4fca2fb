/**
 * The `PhotoUploader` component of src/components/PhotoUploader/index.tsx:
 * a list of preview data URLs that a drop extends (all or nothing, under a
 * cap) and a remove button shortens, reporting every new list to
 * `onPhotosSelected`.
 *
 * The component's state is an object whose `previews` field the handlers
 * replace. `alert` and the `onPhotosSelected` callback are recorded as logs on
 * the same object. Reading a file as a data URL is foreign: it is a parameter
 * that gives the URL, or `None` when the reader fails.
 */
module PhotoUploader {
  import opened JsCommon

  const DefaultMaxPhotos: nat := 10

  /** A file as react-dropzone hands it over. */
  datatype DroppedFile = DroppedFile(name: string, mimeType: string, size: nat)

  /** The alert shown when a drop would pass the cap. */
  function TooManyPhotos(maxPhotos: nat): (message: string)
    ensures StartsWith(message, "最多只能上傳 ")
  {
    StartsWithConcat("最多只能上傳 ", Decimal(maxPhotos) + " 張照片");
    "最多只能上傳 " + (Decimal(maxPhotos) + " 張照片")
  }

  /** The alert names the cap: different caps give different messages. */
  lemma TooManyPhotosNamesCap(a: nat, b: nat)
    requires TooManyPhotos(a) == TooManyPhotos(b)
    ensures a == b
  {
    assert TooManyPhotos(a) == "最多只能上傳 " + Decimal(a) + " 張照片";
    assert TooManyPhotos(b) == "最多只能上傳 " + Decimal(b) + " 張照片";
    SameFrameSameMiddle("最多只能上傳 ", Decimal(a), Decimal(b), " 張照片");
    DecimalInjective(a, b);
  }

  /**
   * `Promise.all` over the readers, taken in order: the data URLs of all the
   * files, or `None` as soon as one reader fails.
   */
  function ReadAll(files: seq<DroppedFile>, readAsDataUrl: DroppedFile -> Option<string>): (r: Option<seq<string>>)
    ensures r.Some? <==> forall i :: 0 <= i < |files| ==> readAsDataUrl(files[i]).Some?
    ensures r.Some? ==> |r.value| == |files|
    ensures r.Some? ==> forall i :: 0 <= i < |files| ==> r.value[i] == readAsDataUrl(files[i]).value
    decreases |files|
  {
    if files == [] then Some([])
    else
      var n := |files| - 1;
      match ReadAll(files[..n], readAsDataUrl)
      case None => None
      case Some(urls) =>
        match readAsDataUrl(files[n])
        case None => None
        case Some(url) => Some(urls + [url])
  }

  /**
   * The list a drop of `newPreviews` leaves: `None` when the drop is
   * refused because it would pass the cap, else the old previews followed by
   * the new ones. An accepted drop never leaves more than `maxPhotos`.
   */
  function AfterDrop(previews: seq<string>, newPreviews: seq<string>, maxPhotos: nat): (r: Option<seq<string>>)
    ensures r.None? <==> |newPreviews| + |previews| > maxPhotos
    ensures r.Some? ==> |r.value| <= maxPhotos
    ensures r.Some? ==>
      && |r.value| == |previews| + |newPreviews|
      && r.value[..|previews|] == previews && r.value[|previews|..] == newPreviews
  {
    if |newPreviews| + |previews| > maxPhotos then None
    else Some(previews + newPreviews)
  }

  /** Whatever is dropped, a list that starts within the cap stays within it. */
  lemma DropStaysWithinCap(previews: seq<string>, newPreviews: seq<string>, maxPhotos: nat)
    requires |previews| <= maxPhotos
    ensures |(match AfterDrop(previews, newPreviews, maxPhotos) case None => previews case Some(p) => p)| <= maxPhotos
  {
  }

  class PhotoUploader {
    const maxPhotos: nat
    /** The `previews` state. */
    var previews: seq<string>
    /** Each list handed to `onPhotosSelected`, in order. */
    var selections: seq<seq<string>>
    /** Each message shown with `alert`, in order. */
    var alerts: seq<string>

    predicate Valid()
      reads this
    {
      |previews| <= maxPhotos
    }

    /** A fresh component with an explicit `maxPhotos` prop. */
    constructor(maxPhotos: nat)
      ensures this.maxPhotos == maxPhotos
      ensures previews == [] && selections == [] && alerts == []
      ensures Valid()
    {
      this.maxPhotos := maxPhotos;
      previews := [];
      selections := [];
      alerts := [];
    }

    /** A fresh component without a `maxPhotos` prop: the cap is 10. */
    constructor WithDefaultCap()
      ensures maxPhotos == DefaultMaxPhotos
      ensures previews == [] && selections == [] && alerts == []
      ensures Valid()
    {
      maxPhotos := DefaultMaxPhotos;
      previews := [];
      selections := [];
      alerts := [];
    }

    /**
     * `onDrop`: a batch that would pass the cap is refused whole, with an
     * alert and no callback; otherwise every file is read, and when all
     * readers succeed the previews become the old list followed by the new
     * data URLs in drop order and the callback receives exactly that list.
     * A failing reader leaves everything as it was.
     */
    method OnDrop(acceptedFiles: seq<DroppedFile>, readAsDataUrl: DroppedFile -> Option<string>)
      modifies this
      ensures |acceptedFiles| + |old(previews)| > maxPhotos ==>
        && previews == old(previews) && selections == old(selections)
        && alerts == old(alerts) + [TooManyPhotos(maxPhotos)]
      ensures |acceptedFiles| + |old(previews)| <= maxPhotos ==>
        && alerts == old(alerts)
        && match ReadAll(acceptedFiles, readAsDataUrl)
           case None => previews == old(previews) && selections == old(selections)
           case Some(urls) =>
             && Some(previews) == AfterDrop(old(previews), urls, maxPhotos)
             && selections == old(selections) + [previews]
      ensures old(Valid()) ==> Valid()
    {
      if |acceptedFiles| + |previews| > maxPhotos {
        alerts := alerts + [TooManyPhotos(maxPhotos)];
        return;
      }
      var read := ReadAll(acceptedFiles, readAsDataUrl);
      if read.None? {
        return;
      }
      var updated := previews + read.value;
      previews := updated;
      selections := selections + [updated];
    }

    /**
     * `removePhoto`: the previews lose the element at `index`, the others
     * keeping their order (an index outside the list removes nothing), and the
     * callback receives the new list.
     */
    method RemovePhoto(index: int)
      modifies this
      ensures previews == DropIndex(old(previews), index)
      ensures 0 <= index < |old(previews)| ==> previews == old(previews)[..index] + old(previews)[index + 1..]
      ensures !(0 <= index < |old(previews)|) ==> previews == old(previews)
      ensures selections == old(selections) + [previews]
      ensures alerts == old(alerts)
      ensures old(Valid()) ==> Valid()
    {
      if 0 <= index < |previews| {
        DropIndexInRange(previews, index);
      } else {
        DropIndexOutOfRange(previews, index);
      }
      var updated := DropIndex(previews, index);
      previews := updated;
      selections := selections + [updated];
    }
  }
}
