/**
 * The profile picture picker: a chosen or dropped file is checked for type
 * and size, then "uploaded" after a delay, after which it becomes the
 * picture and is reported to the owner's callback.
 *
 * Reading the file as a data URL and the 1.5 s delay are one pending
 * completion per accepted file, carrying that URL; completions are run by
 * an explicit later step, in any order. The callback is a log of the
 * values passed to it, kept only when a callback is supplied.
 */
module ProfileImageUpload {
  import opened Wrappers

  const ValidTypes: seq<string> := ["image/jpeg", "image/png", "image/gif", "image/webp"]
  const MaxSize: nat := 5 * 1024 * 1024
  const TypeError := "Please upload a valid image file (JPEG, PNG, GIF, or WEBP)"
  const SizeError := "Image size should be less than 5MB"
  const UpdatedToast := "Profile picture updated"
  const RemovedToast := "Profile picture removed"

  /** A picked file: its MIME type, its size in bytes and the data URL the
      reader produces for it. */
  datatype FileInfo = FileInfo(mimeType: string, size: nat, dataUrl: string)

  /** The error a file is refused with, if any; the type is checked first. */
  function Rejection(f: FileInfo): (r: Option<string>)
    ensures r == None <==> f.mimeType in ValidTypes && f.size <= MaxSize
    ensures r == Some(TypeError) <==> f.mimeType !in ValidTypes
    ensures r == Some(SizeError) <==> f.mimeType in ValidTypes && f.size > MaxSize
  {
    if f.mimeType !in ValidTypes then Some(TypeError)
    else if f.size > MaxSize then Some(SizeError)
    else None
  }

  /** The limit is inclusive: a picture of exactly 5 MiB is accepted, one
      byte more is not. */
  lemma SizeLimitInclusive(mimeType: string, url: string)
    requires mimeType in ValidTypes
    ensures Rejection(FileInfo(mimeType, 5242880, url)) == None
    ensures Rejection(FileInfo(mimeType, 5242881, url)) == Some(SizeError)
  {
  }

  /** `initialImage || null`: an empty string counts as no picture. */
  function InitialImage(initial: Option<string>): (r: Option<string>)
    ensures r == None <==> initial == None || initial == Some("")
    ensures r != None ==> r == initial
  {
    if initial == Some("") then None else initial
  }

  class ImageUpload {
    var image: Option<string>
    var isUploading: bool
    var isDragging: bool
    var error: Option<string>
    /** Data URLs of accepted files whose upload has not completed. */
    var pending: seq<string>
    const hasCallback: bool
    /** Values passed to the owner's callback, oldest first. */
    var reported: seq<Option<string>>
    var toasts: seq<string>

    /** Uploading is only ever shown while some upload is outstanding. */
    predicate Valid()
      reads this
    {
      isUploading ==> |pending| > 0
    }

    /** Whether a picture is shown (an empty string would not be). */
    predicate HasImage()
      reads this
    {
      image != None && image.value != ""
    }

    /** The upload button's caption. */
    function ButtonLabel(): (s: string)
      reads this
      ensures s == "Change Photo" <==> HasImage()
      ensures s == "Upload Photo" <==> !HasImage()
    {
      if HasImage() then "Change Photo" else "Upload Photo"
    }

    constructor(initialImage: Option<string>, hasCallback: bool)
      ensures Valid()
      ensures image == InitialImage(initialImage)
      ensures !isUploading && !isDragging && error == None
      ensures pending == [] && this.hasCallback == hasCallback && reported == [] && toasts == []
    {
      image := InitialImage(initialImage);
      isUploading := false;
      isDragging := false;
      error := None;
      pending := [];
      this.hasCallback := hasCallback;
      reported := [];
      toasts := [];
    }

    /** `handleFile`: the previous error is cleared; a refused file leaves
        only its error; an accepted one starts uploading. */
    method HandleFile(f: FileInfo)
      requires Valid()
      modifies this
      ensures Valid()
      ensures error == Rejection(f)
      ensures Rejection(f) != None ==> isUploading == old(isUploading) && pending == old(pending)
      ensures Rejection(f) == None ==> isUploading && pending == old(pending) + [f.dataUrl]
      ensures image == old(image) && isDragging == old(isDragging)
      ensures reported == old(reported) && toasts == old(toasts)
    {
      error := None;
      var rejection := Rejection(f);
      if rejection != None {
        error := rejection;
        return;
      }
      isUploading := true;
      pending := pending + [f.dataUrl];
    }

    /** The file input's change event; the input is disabled while
        uploading, and an empty selection does nothing. */
    method ChangeFile(file: Option<FileInfo>)
      requires Valid() && !isUploading
      modifies this
      ensures Valid()
      ensures file == None ==> error == old(error) && pending == old(pending) && !isUploading
      ensures file != None ==> error == Rejection(file.value)
      ensures file != None && Rejection(file.value) != None ==> !isUploading && pending == old(pending)
      ensures file != None && Rejection(file.value) == None ==> isUploading && pending == old(pending) + [file.value.dataUrl]
      ensures image == old(image) && isDragging == old(isDragging)
      ensures reported == old(reported) && toasts == old(toasts)
    {
      if file == None {
        return;
      }
      HandleFile(file.value);
    }

    method DragOver()
      requires Valid()
      modifies this
      ensures Valid()
      ensures isDragging
      ensures image == old(image) && isUploading == old(isUploading) && error == old(error)
      ensures pending == old(pending) && reported == old(reported) && toasts == old(toasts)
    {
      isDragging := true;
    }

    method DragLeave()
      requires Valid()
      modifies this
      ensures Valid()
      ensures !isDragging
      ensures image == old(image) && isUploading == old(isUploading) && error == old(error)
      ensures pending == old(pending) && reported == old(reported) && toasts == old(toasts)
    {
      isDragging := false;
    }

    /** A drop ends dragging; a dropped file is handled like a chosen one,
        a drop without one changes nothing else. */
    method Drop(file: Option<FileInfo>)
      requires Valid()
      modifies this
      ensures Valid()
      ensures !isDragging
      ensures file == None ==>
                isUploading == old(isUploading) && error == old(error) && pending == old(pending)
      ensures file != None ==> error == Rejection(file.value)
      ensures file != None && Rejection(file.value) != None ==> isUploading == old(isUploading) && pending == old(pending)
      ensures file != None && Rejection(file.value) == None ==> isUploading && pending == old(pending) + [file.value.dataUrl]
      ensures image == old(image) && reported == old(reported) && toasts == old(toasts)
    {
      isDragging := false;
      if file == None {
        return;
      }
      HandleFile(file.value);
    }

    /** The delayed end of upload `i`: its URL becomes the picture, the
        callback receives that same value, and uploading ends. */
    method CompleteUpload(i: nat)
      requires Valid() && i < |pending|
      modifies this
      ensures Valid()
      ensures image == Some(old(pending[i])) && !isUploading
      ensures pending == old(pending[..i] + pending[i + 1..])
      ensures reported == old(reported) + (if hasCallback then [image] else [])
      ensures toasts == old(toasts) + [UpdatedToast]
      ensures error == old(error) && isDragging == old(isDragging)
    {
      var url := pending[i];
      pending := pending[..i] + pending[i + 1..];
      image := Some(url);
      if hasCallback {
        reported := reported + [Some(url)];
      }
      isUploading := false;
      toasts := toasts + [UpdatedToast];
    }

    /** The remove button, shown over a picture while not uploading: the
        picture is dropped and the callback receives null. */
    method RemoveImage()
      requires Valid() && HasImage() && !isUploading
      modifies this
      ensures Valid()
      ensures image == None && !HasImage() && ButtonLabel() == "Upload Photo"
      ensures reported == old(reported) + (if hasCallback then [None] else [])
      ensures toasts == old(toasts) + [RemovedToast]
      ensures isUploading == old(isUploading) && isDragging == old(isDragging)
      ensures error == old(error) && pending == old(pending)
    {
      image := None;
      if hasCallback {
        reported := reported + [None];
      }
      toasts := toasts + [RemovedToast];
    }
  }
}
