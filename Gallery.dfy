/**
 * The photo gallery: upload (file by file, each followed by its record),
 * delete, favourite, and a viewer in which the caption can be edited.
 * Remote calls are abstract steps whose outcome is a parameter.
 */
module Gallery {
  import opened Wrappers
  import opened Lists
  import opened Entities

  /** The outcome of one file of an upload: the upload failed, or it gave a public URL and the record insert succeeded or not. */
  datatype FileResult = UploadFailed | Uploaded(publicUrl: string, rowCreated: bool)

  /** The record inserted for an uploaded file. */
  datatype PhotoDraft = PhotoDraft(image_url: string, caption: string, album: string)

  /** A new photo record: empty caption, default album. */
  function NewPhoto(url: string): (d: PhotoDraft)
    ensures d.image_url == url && d.caption == "" && d.album == "default"
  {
    PhotoDraft(url, "", "default")
  }

  predicate Succeeded(r: FileResult) {
    r.Uploaded? && r.rowCreated
  }

  /** The number of leading files whose upload and record insert both succeeded. */
  function FirstFailure(results: seq<FileResult>): (k: nat)
    ensures k <= |results|
    ensures forall i :: 0 <= i < k ==> Succeeded(results[i])
    ensures k < |results| ==> !Succeeded(results[k])
  {
    if results == [] || !Succeeded(results[0]) then 0
    else
      var k := FirstFailure(results[1..]);
      assert forall i :: 1 <= i <= k ==> results[i] == results[1..][i - 1];
      1 + k
  }

  /** The records of the first `k` files, in file order. */
  function Drafts(results: seq<FileResult>, k: nat): (ds: seq<PhotoDraft>)
    requires k <= |results| && forall i :: 0 <= i < k ==> results[i].Uploaded?
    ensures |ds| == k
  {
    seq(k, i requires 0 <= i < k => NewPhoto(results[i].publicUrl))
  }

  /**
   * The upload loop: for each file in order, upload it and insert its
   * record; the first failure aborts the rest. Returns the records inserted
   * and whether every file went through.
   */
  method CreateRecords(results: seq<FileResult>) returns (created: seq<PhotoDraft>, allDone: bool)
    ensures var k := FirstFailure(results);
      created == Drafts(results, k) && (allDone <==> k == |results|)
  {
    created := [];
    var i := 0;
    while i < |results|
      invariant i <= |results|
      invariant forall j :: 0 <= j < i ==> Succeeded(results[j])
      invariant created == Drafts(results, i)
    {
      var r := results[i];
      if r.UploadFailed? {
        break;
      }
      if !r.rowCreated {
        break;
      }
      created := created + [NewPhoto(r.publicUrl)];
      i := i + 1;
    }
    allDone := i == |results|;
    FirstFailureIs(results, i);
  }

  /** The first failure is where the loop stopped. */
  lemma FirstFailureIs(results: seq<FileResult>, i: nat)
    requires i <= |results| && (forall j :: 0 <= j < i ==> Succeeded(results[j]))
    requires i < |results| ==> !Succeeded(results[i])
    ensures FirstFailure(results) == i
  {
  }

  function PhotoId(p: Photo): Id {
    p.id
  }

  /** The gallery after a delete: the photo with that id is gone, the others stay in order. */
  function RemovePhoto(photos: seq<Photo>, id: Id): (r: seq<Photo>)
    ensures forall i :: 0 <= i < |r| ==> r[i].id != id && r[i] in photos
    ensures forall i :: 0 <= i < |photos| && photos[i].id != id ==> photos[i] in r
    ensures Subsequence(r, photos)
  {
    RemoveKey(photos, PhotoId, id)
  }

  /** The gallery after a favourite toggle: the matching photo's flag flips; nothing else changes. */
  function ToggleFavorite(photos: seq<Photo>, id: Id): (r: seq<Photo>)
    ensures |r| == |photos|
    ensures forall i :: 0 <= i < |photos| ==>
      r[i] == if photos[i].id == id then photos[i].(is_favorite := !photos[i].is_favorite) else photos[i]
  {
    MapWhere(photos, (p: Photo) => p.id == id, (p: Photo) => p.(is_favorite := !p.is_favorite))
  }

  /** Toggling twice restores the gallery. */
  lemma ToggleFavoriteTwice(photos: seq<Photo>, id: Id)
    ensures ToggleFavorite(ToggleFavorite(photos, id), id) == photos
  {
    var twice := ToggleFavorite(ToggleFavorite(photos, id), id);
    assert forall i :: 0 <= i < |photos| ==> twice[i] == photos[i];
  }

  /** The gallery after a caption save: the matching photo gets the caption; nothing else changes. */
  function SetCaption(photos: seq<Photo>, id: Id, caption: string): (r: seq<Photo>)
    ensures |r| == |photos|
    ensures forall i :: 0 <= i < |photos| ==>
      r[i] == if photos[i].id == id then photos[i].(caption := Some(caption)) else photos[i]
  {
    MapWhere(photos, (p: Photo) => p.id == id, (p: Photo) => p.(caption := Some(caption)))
  }

  /** Saving two captions in a row is saving the second. */
  lemma SetCaptionLastWins(photos: seq<Photo>, id: Id, first: string, second: string)
    ensures SetCaption(SetCaption(photos, id, first), id, second) == SetCaption(photos, id, second)
  {
    var a := SetCaption(SetCaption(photos, id, first), id, second);
    var b := SetCaption(photos, id, second);
    assert forall i :: 0 <= i < |photos| ==> a[i] == b[i];
  }

  /** The gallery page; the loading and uploading flags are left out. */
  class GalleryPage {
    var photos: seq<Photo>
    var selectedPhoto: Option<Photo>
    var editMode: Option<Id>
    var caption: string

    constructor ()
      ensures photos == [] && selectedPhoto.None? && editMode.None? && caption == ""
    {
      photos, selectedPhoto, editMode, caption := [], None, None, "";
    }

    method LoadPhotos(fetched: Option<seq<Photo>>)
      modifies this
      ensures photos == (if fetched.Some? then fetched.value else old(photos))
      ensures selectedPhoto == old(selectedPhoto) && editMode == old(editMode) && caption == old(caption)
    {
      if fetched.Some? {
        photos := fetched.value;
      }
    }

    /**
     * handleFileUpload: with no files nothing happens. Otherwise the files
     * are processed in order; when all succeed the gallery is reloaded
     * (`reloaded` is that fetch's result). Returns the records inserted.
     */
    method HandleFileUpload(results: seq<FileResult>, reloaded: Option<seq<Photo>>) returns (created: seq<PhotoDraft>)
      modifies this
      ensures var k := FirstFailure(results);
        created == Drafts(results, k)
        && photos == (if results != [] && k == |results| && reloaded.Some? then reloaded.value else old(photos))
      ensures selectedPhoto == old(selectedPhoto) && editMode == old(editMode) && caption == old(caption)
    {
      if results == [] {
        return [];
      }
      var allDone;
      created, allDone := CreateRecords(results);
      if allDone {
        LoadPhotos(reloaded);
      }
    }

    method HandleDelete(id: Id, confirmed: bool, succeeded: bool)
      modifies this
      ensures photos == (if confirmed && succeeded then RemovePhoto(old(photos), id) else old(photos))
      ensures selectedPhoto == old(selectedPhoto) && editMode == old(editMode) && caption == old(caption)
    {
      if confirmed && succeeded {
        photos := RemovePhoto(photos, id);
      }
    }

    method HandleToggleFavorite(photo: Photo, succeeded: bool)
      modifies this
      ensures photos == (if succeeded then ToggleFavorite(old(photos), photo.id) else old(photos))
      ensures selectedPhoto == old(selectedPhoto) && editMode == old(editMode) && caption == old(caption)
    {
      if succeeded {
        photos := ToggleFavorite(photos, photo.id);
      }
    }

    /**
     * handleUpdateCaption: once saved remotely, the buffered caption goes on
     * the matching photo in the list, and edit mode and the buffer are
     * cleared. The open viewer's `selectedPhoto` is not refreshed.
     */
    method HandleUpdateCaption(photo: Photo, succeeded: bool)
      modifies this
      ensures succeeded ==> photos == SetCaption(old(photos), photo.id, old(caption)) && editMode.None? && caption == ""
      ensures !succeeded ==> photos == old(photos) && editMode == old(editMode) && caption == old(caption)
      ensures selectedPhoto == old(selectedPhoto)
    {
      if succeeded {
        photos := SetCaption(photos, photo.id, caption);
        editMode := None;
        caption := "";
      }
    }

    /** A click on a photo opens it in the viewer. */
    method SelectPhoto(photo: Photo)
      modifies this
      ensures selectedPhoto == Some(photo)
      ensures photos == old(photos) && editMode == old(editMode) && caption == old(caption)
    {
      selectedPhoto := Some(photo);
    }

    method CloseViewer()
      modifies this
      ensures selectedPhoto.None?
      ensures photos == old(photos) && editMode == old(editMode) && caption == old(caption)
    {
      selectedPhoto := None;
    }

    /** Edit Caption, shown in the viewer: edit the viewed photo, starting from its caption or "". */
    method EnterEditMode()
      requires selectedPhoto.Some?
      modifies this
      ensures editMode == Some(old(selectedPhoto).value.id)
      ensures caption == old(selectedPhoto).value.caption.GetOr("")
      ensures photos == old(photos) && selectedPhoto == old(selectedPhoto)
    {
      editMode := Some(selectedPhoto.value.id);
      caption := selectedPhoto.value.caption.GetOr("");
    }

    /** Cancel in the caption editor. */
    method CancelEdit()
      modifies this
      ensures editMode.None? && caption == ""
      ensures photos == old(photos) && selectedPhoto == old(selectedPhoto)
    {
      editMode := None;
      caption := "";
    }

    method SetCaptionBuffer(text: string)
      modifies this
      ensures caption == text
      ensures photos == old(photos) && selectedPhoto == old(selectedPhoto) && editMode == old(editMode)
    {
      caption := text;
    }
  }

  /**
   * Opening the caption editor and saving without typing writes back the
   * caption the photo had, with a missing caption becoming "".
   */
  lemma EditAndSaveUnchangedCaption(photos: seq<Photo>, p: Photo, i: nat)
    requires i < |photos| && photos[i] == p
    ensures SetCaption(photos, p.id, p.caption.GetOr(""))[i] == p.(caption := Some(p.caption.GetOr("")))
  {
  }
}
