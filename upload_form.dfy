/** The upload form component: four pieces of state (the drag highlight, the selected
    file, the caption and the uploading flag) changed by drag-and-drop events, the
    file input, the remove button and the submit handler. alert() calls are recorded
    in `alerts`, calls of the onUploadSuccess callback in `successCalls`. */
module UploadForm {
  import opened Text
  import opened Media

  const NotMediaAlert := "Please select an image or video file."
  const NoFileAlert := "Please select a file to upload."
  const FailedAlert := "Upload failed. Please try again."

  /** The form takes a file whose declared type starts with "image/" or "video/". */
  predicate IsImageOrVideo(file: File)
  {
    StartsWith(file.mimeType, "image/") || StartsWith(file.mimeType, "video/")
  }

  /** `disabled={!selectedFile || isUploading}`, negated. */
  function SubmitEnabled(selectedFile: Option<File>, isUploading: bool): (enabled: bool)
    ensures enabled <==> selectedFile.Some? && !isUploading
  {
    match selectedFile
    case None => false
    case Some(_) => !isUploading
  }

  class UploadForm {
    var selectedFile: Option<File>
    var caption: string
    var isUploading: bool
    var dragActive: bool
    var alerts: seq<string>
    var successCalls: nat

    constructor ()
      ensures selectedFile == None && caption == "" && !isUploading && !dragActive
      ensures alerts == [] && successCalls == 0
    {
      selectedFile, caption, isUploading, dragActive := None, "", false, false;
      alerts, successCalls := [], 0;
    }

    predicate CanSubmit()
      reads this
    {
      SubmitEnabled(selectedFile, isUploading)
    }

    /** handleDrag: 'dragenter' and 'dragover' light the drop area, 'dragleave' dims it,
        any other event type leaves it. */
    method HandleDrag(eventType: string)
      modifies this
      ensures eventType == "dragenter" || eventType == "dragover" ==> dragActive
      ensures eventType == "dragleave" ==> !dragActive
      ensures eventType != "dragenter" && eventType != "dragover" && eventType != "dragleave" ==>
              dragActive == old(dragActive)
      ensures selectedFile == old(selectedFile) && caption == old(caption)
      ensures isUploading == old(isUploading) && alerts == old(alerts)
      ensures successCalls == old(successCalls)
    {
      if eventType == "dragenter" || eventType == "dragover" {
        dragActive := true;
      } else if eventType == "dragleave" {
        dragActive := false;
      }
    }

    /** handleFileSelect: keep an image or video file, refuse anything else (including
        no file at all) with an alert and leave the selection as it was. */
    method HandleFileSelect(file: Option<File>)
      modifies this
      ensures file.Some? && IsImageOrVideo(file.value) ==>
              selectedFile == file && alerts == old(alerts)
      ensures !(file.Some? && IsImageOrVideo(file.value)) ==>
              selectedFile == old(selectedFile) && alerts == old(alerts) + [NotMediaAlert]
      ensures caption == old(caption) && isUploading == old(isUploading)
      ensures dragActive == old(dragActive) && successCalls == old(successCalls)
    {
      if file.Some? && IsImageOrVideo(file.value) {
        selectedFile := file;
      } else {
        alerts := alerts + [NotMediaAlert];
      }
    }

    /** handleDrop: the highlight always goes off; the first dropped file, if any, goes
        through handleFileSelect. */
    method HandleDrop(files: seq<File>)
      modifies this
      ensures !dragActive
      ensures files == [] ==> selectedFile == old(selectedFile) && alerts == old(alerts)
      ensures files != [] && IsImageOrVideo(files[0]) ==>
              selectedFile == Some(files[0]) && alerts == old(alerts)
      ensures files != [] && !IsImageOrVideo(files[0]) ==>
              selectedFile == old(selectedFile) && alerts == old(alerts) + [NotMediaAlert]
      ensures caption == old(caption) && isUploading == old(isUploading)
      ensures successCalls == old(successCalls)
    {
      dragActive := false;
      if files != [] {
        HandleFileSelect(Some(files[0]));
      }
    }

    /** handleFileInputChange: the first chosen file, if any, goes through handleFileSelect. */
    method HandleFileInputChange(files: seq<File>)
      modifies this
      ensures files == [] ==> selectedFile == old(selectedFile) && alerts == old(alerts)
      ensures files != [] && IsImageOrVideo(files[0]) ==>
              selectedFile == Some(files[0]) && alerts == old(alerts)
      ensures files != [] && !IsImageOrVideo(files[0]) ==>
              selectedFile == old(selectedFile) && alerts == old(alerts) + [NotMediaAlert]
      ensures caption == old(caption) && isUploading == old(isUploading)
      ensures dragActive == old(dragActive) && successCalls == old(successCalls)
    {
      if files != [] {
        HandleFileSelect(Some(files[0]));
      }
    }

    /** removeFile: forget the selected file. */
    method RemoveFile()
      modifies this
      ensures selectedFile == None && !CanSubmit()
      ensures caption == old(caption) && isUploading == old(isUploading)
      ensures dragActive == old(dragActive) && alerts == old(alerts)
      ensures successCalls == old(successCalls)
    {
      selectedFile := None;
    }

    /** The caption text area. */
    method SetCaption(text: string)
      modifies this
      ensures caption == text && selectedFile == old(selectedFile)
      ensures isUploading == old(isUploading) && dragActive == old(dragActive)
      ensures alerts == old(alerts) && successCalls == old(successCalls)
    {
      caption := text;
    }

    /** The synchronous part of handleSubmit, up to the await: without a file it alerts
        and returns; otherwise it raises the uploading flag, which disables the button. */
    method BeginSubmit() returns (started: bool)
      modifies this
      ensures started <==> old(selectedFile).Some?
      ensures !started ==> isUploading == old(isUploading) && alerts == old(alerts) + [NoFileAlert]
      ensures started ==> isUploading && !CanSubmit() && alerts == old(alerts)
      ensures selectedFile == old(selectedFile) && caption == old(caption)
      ensures dragActive == old(dragActive) && successCalls == old(successCalls)
    {
      if selectedFile.None? {
        alerts := alerts + [NoFileAlert];
        return false;
      }
      isUploading := true;
      return true;
    }

    /** The part of handleSubmit after the await. The awaited step is a timer that
        always resolves, so the try block always resets the form and calls
        onUploadSuccess; the catch block runs only when that callback throws, and then
        alerts. Either way `finally` lowers the flag. */
    method FinishSubmit(callbackThrows: bool)
      modifies this
      ensures !isUploading && selectedFile == None && caption == ""
      ensures successCalls == old(successCalls) + 1
      ensures callbackThrows ==> alerts == old(alerts) + [FailedAlert]
      ensures !callbackThrows ==> alerts == old(alerts)
      ensures dragActive == old(dragActive)
    {
      selectedFile := None;
      caption := "";
      successCalls := successCalls + 1;
      if callbackThrows {
        alerts := alerts + [FailedAlert];
      }
      isUploading := false;
    }

    /** handleSubmit from start to end; `callbackThrows` says whether onUploadSuccess
        throws when it is called. */
    method HandleSubmit(callbackThrows: bool)
      modifies this
      ensures !isUploading || (old(selectedFile).None? && isUploading == old(isUploading))
      ensures old(selectedFile).None? ==>
              selectedFile == None && caption == old(caption) &&
              alerts == old(alerts) + [NoFileAlert] && successCalls == old(successCalls) &&
              isUploading == old(isUploading)
      ensures old(selectedFile).Some? ==>
              selectedFile == None && caption == "" && !isUploading &&
              successCalls == old(successCalls) + 1 &&
              alerts == old(alerts) + (if callbackThrows then [FailedAlert] else [])
      ensures dragActive == old(dragActive)
    {
      var started := BeginSubmit();
      if started {
        FinishSubmit(callbackThrows);
      }
    }
  }
}
