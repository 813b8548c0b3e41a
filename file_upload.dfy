/**
 * The file picker with an image preview: a chosen file is checked against the
 * size limit and reported to the owner; the picture shown is the new preview,
 * else the stored image unless it failed to load.
 */
module FileUpload {
  import opened Optional
  import opened Text

  /** What the picker knows of a chosen file. */
  datatype FileInfo = FileInfo(name: string, size: int, mimeType: string)

  /** `file.type.startsWith("image/")`. */
  predicate IsImage(f: FileInfo) {
    StartsWith(f.mimeType, "image/")
  }

  /** The limit in bytes for a limit of `maxSizeMb` megabytes. */
  function MaxBytes(maxSizeMb: nat): nat {
    maxSizeMb * 1024 * 1024
  }

  /** `File size exceeds ${maxSize}MB`. */
  function SizeError(maxSizeMb: nat): string {
    "File size exceeds " + NatToString(maxSizeMb) + "MB"
  }

  /** `preview || (currentImageUrl && !imageError ? currentImageUrl : null)`. */
  function DisplayImage(preview: Option<string>, currentImageUrl: Option<string>, imageError: bool): (r: Option<string>)
    ensures Truthy(preview) ==> r == preview
    ensures !Truthy(preview) && Truthy(currentImageUrl) && !imageError ==> r == currentImageUrl
    ensures !Truthy(preview) && (!Truthy(currentImageUrl) || imageError) ==> r.None?
  {
    if Truthy(preview) then preview
    else if Truthy(currentImageUrl) && !imageError then currentImageUrl
    else None
  }

  /** The drop zone and the Select button are rendered exactly when no image is. */
  predicate ShowsPrompt(preview: Option<string>, currentImageUrl: Option<string>, imageError: bool) {
    DisplayImage(preview, currentImageUrl, imageError).None?
  }

  /** An image is on screen exactly when there is a preview, or a stored image that has not failed. */
  lemma PromptIffNothingToShow(preview: Option<string>, currentImageUrl: Option<string>, imageError: bool)
    ensures !ShowsPrompt(preview, currentImageUrl, imageError) <==>
      Truthy(preview) || (Truthy(currentImageUrl) && !imageError)
  {
  }

  /** The state of one picker; `selections` and `clears` log the calls to the owner's callbacks. */
  class Picker {
    const maxSizeMb: nat
    const hasOnClear: bool
    var preview: Option<string>
    var error: Option<string>
    var imageError: bool
    var selections: seq<Option<FileInfo>>
    var clears: nat

    constructor (maxSizeMb: nat, hasOnClear: bool)
      ensures this.maxSizeMb == maxSizeMb && this.hasOnClear == hasOnClear
      ensures preview == None && error == None && !imageError && selections == [] && clears == 0
    {
      this.maxSizeMb := maxSizeMb;
      this.hasOnClear := hasOnClear;
      preview := None;
      error := None;
      imageError := false;
      selections := [];
      clears := 0;
    }

    /**
     * `handleFileChange`: no file clears the preview and reports none; a file
     * over the limit only sets the error; otherwise the file is reported, and
     * a file that is not an image drops the preview (an image's preview
     * arrives later, see `PreviewLoaded`).
     */
    method HandleFileChange(file: Option<FileInfo>)
      modifies this
      ensures !imageError && clears == old(clears)
      ensures file.None? ==> preview == None && error == None && selections == old(selections) + [None]
      ensures file.Some? && file.value.size > MaxBytes(maxSizeMb) ==>
        error == Some(SizeError(maxSizeMb)) && preview == old(preview) && selections == old(selections)
      ensures file.Some? && file.value.size <= MaxBytes(maxSizeMb) ==>
        && error == None && selections == old(selections) + [file]
        && preview == (if IsImage(file.value) then old(preview) else None)
    {
      error := None;
      imageError := false;
      if file.None? {
        preview := None;
        selections := selections + [None];
        return;
      }
      if file.value.size > MaxBytes(maxSizeMb) {
        error := Some(SizeError(maxSizeMb));
        return;
      }
      if !IsImage(file.value) {
        preview := None;
      }
      selections := selections + [file];
    }

    /** The file reader finished an image: its data URL is the preview. */
    method PreviewLoaded(dataUrl: string)
      modifies this
      ensures preview == Some(dataUrl)
      ensures error == old(error) && imageError == old(imageError) && selections == old(selections) && clears == old(clears)
    {
      preview := Some(dataUrl);
    }

    /** `handleClear`: everything reset, none reported, then the owner's `onClear` if it has one. */
    method HandleClear()
      modifies this
      ensures preview == None && error == None && !imageError
      ensures selections == old(selections) + [None]
      ensures clears == old(clears) + (if hasOnClear then 1 else 0)
    {
      preview := None;
      error := None;
      imageError := false;
      selections := selections + [None];
      if hasOnClear {
        clears := clears + 1;
      }
    }

    /** `handleImageError`: the image is marked broken and the owner told to clear it. */
    method HandleImageError()
      modifies this
      ensures imageError && preview == old(preview) && error == old(error) && selections == old(selections)
      ensures clears == old(clears) + (if hasOnClear then 1 else 0)
    {
      imageError := true;
      if hasOnClear {
        clears := clears + 1;
      }
    }
  }

  /**
   * After a clear (no preview, no broken image) the stored image is on screen
   * again, if there is one: only the owner's `onClear` can take it away.
   */
  lemma ClearShowsStoredImageAgain(currentImageUrl: Option<string>)
    ensures DisplayImage(None, currentImageUrl, false) == (if Truthy(currentImageUrl) then currentImageUrl else None)
  {
  }

  /** A stored image that failed to load, with no preview, brings the prompt back. */
  lemma BrokenImageShowsPrompt(currentImageUrl: Option<string>)
    ensures ShowsPrompt(None, currentImageUrl, true)
  {
  }
}
