/** The fridge-photo uploader (frontend/src/components/fridge/FridgeUploader.tsx).
    Reading the file and the two-second detection delay are asynchronous; here
    each completion is an event method of its own, and the counters of reads
    and timers in flight say which completions can still arrive. Each handler
    returns what it hands to `onIngredientsDetected`, or None. */
module FridgeUploader {
  import opened Types
  import opened Lists

  /** The ingredient names the mocked detection always reports. */
  const DETECTED: seq<string> := ["Broccoli", "Carrots", "Eggs", "Milk", "Apples"]

  datatype ImageFile = ImageFile(name: string)

  class Uploader {
    var dragActive: bool
    var isUploading: bool
    /** The data URL of the shown image, when one is shown. */
    var uploadedImage: Option<string>
    var detectedIngredients: seq<string>
    /** File reads started and not yet loaded. */
    var readsInFlight: nat
    /** Detection timers set and not yet fired. */
    var timersInFlight: nat
    /** Whether the parent passed `onIngredientsDetected`. */
    const notify: bool

    function Emit(list: seq<string>): Option<seq<string>>
      reads this
    {
      if notify then Some(list) else None
    }

    constructor (notify: bool)
      ensures !dragActive && !isUploading && uploadedImage == None
      ensures detectedIngredients == [] && readsInFlight == 0 && timersInFlight == 0
      ensures this.notify == notify
    {
      dragActive, isUploading, uploadedImage := false, false, None;
      detectedIngredients, readsInFlight, timersInFlight := [], 0, 0;
      this.notify := notify;
    }

    /** `handleDrag`: enter and over raise the highlight, leave drops it,
        any other event type leaves it as it was. */
    method HandleDrag(eventType: string)
      modifies this
      ensures eventType == "dragenter" || eventType == "dragover" ==> dragActive
      ensures eventType == "dragleave" ==> !dragActive
      ensures eventType != "dragenter" && eventType != "dragover" && eventType != "dragleave" ==>
        dragActive == old(dragActive)
      ensures isUploading == old(isUploading) && uploadedImage == old(uploadedImage)
      ensures detectedIngredients == old(detectedIngredients)
      ensures readsInFlight == old(readsInFlight) && timersInFlight == old(timersInFlight)
    {
      if eventType == "dragenter" || eventType == "dragover" {
        dragActive := true;
      } else if eventType == "dragleave" {
        dragActive := false;
      }
    }

    /** `handleFiles`: mark the upload as running and start reading the first file. */
    method HandleFiles(files: seq<ImageFile>)
      requires |files| > 0
      modifies this
      ensures isUploading
      ensures readsInFlight == old(readsInFlight) + 1
      ensures dragActive == old(dragActive) && uploadedImage == old(uploadedImage)
      ensures detectedIngredients == old(detectedIngredients)
      ensures timersInFlight == old(timersInFlight)
    {
      isUploading := true;
      readsInFlight := readsInFlight + 1;
    }

    /** `handleDrop`: the highlight always goes off; the files are processed
        only when at least one was dropped. */
    method HandleDrop(files: seq<ImageFile>)
      modifies this
      ensures !dragActive
      ensures |files| > 0 ==> isUploading && readsInFlight == old(readsInFlight) + 1
      ensures |files| == 0 ==> isUploading == old(isUploading) && readsInFlight == old(readsInFlight)
      ensures uploadedImage == old(uploadedImage) && detectedIngredients == old(detectedIngredients)
      ensures timersInFlight == old(timersInFlight)
    {
      dragActive := false;
      if |files| > 0 {
        HandleFiles(files);
      }
    }

    /** `handleChange` of the file input: the same, without the highlight. */
    method HandleChange(files: seq<ImageFile>)
      modifies this
      ensures |files| > 0 ==> isUploading && readsInFlight == old(readsInFlight) + 1
      ensures |files| == 0 ==> isUploading == old(isUploading) && readsInFlight == old(readsInFlight)
      ensures dragActive == old(dragActive)
      ensures uploadedImage == old(uploadedImage) && detectedIngredients == old(detectedIngredients)
      ensures timersInFlight == old(timersInFlight)
    {
      if |files| > 0 {
        HandleFiles(files);
      }
    }

    /** The reader's `onload`: a non-empty result becomes the shown image and
        sets the detection timer; an empty one changes nothing else (and the
        spinner then stays on). */
    method ReaderLoaded(result: string)
      requires readsInFlight > 0
      modifies this
      ensures readsInFlight == old(readsInFlight) - 1
      ensures result != "" ==> uploadedImage == Some(result) && timersInFlight == old(timersInFlight) + 1
      ensures result == "" ==> uploadedImage == old(uploadedImage) && timersInFlight == old(timersInFlight)
      ensures isUploading == old(isUploading) && dragActive == old(dragActive)
      ensures detectedIngredients == old(detectedIngredients)
    {
      readsInFlight := readsInFlight - 1;
      if result != "" {
        uploadedImage := Some(result);
        timersInFlight := timersInFlight + 1;
      }
    }

    /** The detection timer fires: the fixed list is shown and emitted, and the
        upload is over. */
    method DetectionDone() returns (emitted: Option<seq<string>>)
      requires timersInFlight > 0
      modifies this
      ensures detectedIngredients == DETECTED
      ensures emitted == Emit(DETECTED)
      ensures !isUploading
      ensures timersInFlight == old(timersInFlight) - 1
      ensures dragActive == old(dragActive) && uploadedImage == old(uploadedImage)
      ensures readsInFlight == old(readsInFlight)
    {
      detectedIngredients := DETECTED;
      emitted := Emit(DETECTED);
      isUploading := false;
      timersInFlight := timersInFlight - 1;
    }

    /** `removeImage`: no image, no detected names, and [] is emitted. */
    method RemoveImage() returns (emitted: Option<seq<string>>)
      modifies this
      ensures uploadedImage == None && detectedIngredients == []
      ensures emitted == Emit([])
      ensures dragActive == old(dragActive) && isUploading == old(isUploading)
      ensures readsInFlight == old(readsInFlight) && timersInFlight == old(timersInFlight)
    {
      uploadedImage := None;
      detectedIngredients := [];
      emitted := Emit([]);
    }

    /** `removeIngredient`: drop every entry equal to `name`, keep the order
        of the others, and emit the new list. */
    method RemoveIngredient(name: string) returns (emitted: Option<seq<string>>)
      modifies this
      ensures detectedIngredients == RemoveAll(old(detectedIngredients), name)
      ensures IsSubsequence(detectedIngredients, old(detectedIngredients))
      ensures emitted == Emit(detectedIngredients)
      ensures dragActive == old(dragActive) && isUploading == old(isUploading)
      ensures uploadedImage == old(uploadedImage)
      ensures readsInFlight == old(readsInFlight) && timersInFlight == old(timersInFlight)
    {
      RemoveAllIsSubsequence(detectedIngredients, name);
      detectedIngredients := RemoveAll(detectedIngredients, name);
      emitted := Emit(detectedIngredients);
    }
  }
}
