/**
  Model of components/upload/UploadDropzone.tsx: the drag highlight, the error line,
  and the check of a dropped or picked file before it is handed on.

  A handler returns the file it passes to `onFilesSelected` (always as a one-element
  list), or `None` when it does not call it.
 */
module Dropzone {
  import opened Wrappers
  import opened TextOps
  import opened Utils

  /** Shown when a rejected file comes without a message of its own. */
  const INVALID_FILE_FALLBACK: string := "File không hợp lệ"

  datatype Outcome = NoFiles | Rejected(message: string) | Selected(file: File)

  /** `processFiles(files)`: only the first file is looked at. */
  function Process(files: seq<File>, maxSizeBytes: int, formatFileSize: int -> string): (o: Outcome)
    ensures o.NoFiles? <==> files == []
    ensures o.Selected? <==> files != [] && ValidateVideoFile(files[0], maxSizeBytes, formatFileSize).valid
    ensures o.Selected? ==> o.file == files[0]
  {
    if |files| == 0 then NoFiles
    else
      var file := files[0];
      var validation := ValidateVideoFile(file, maxSizeBytes, formatFileSize);
      if !validation.valid then
        Rejected(if validation.error.None? || validation.error.value == "" then INVALID_FILE_FALLBACK
                 else validation.error.value)
      else
        Selected(file)
  }

  /**
    A rejection names the reason `validateVideoFile` gave: the type error for a
    non-video, otherwise the size error; the fallback text is never shown.
   */
  lemma RejectionExplainsWhy(files: seq<File>, maxSizeBytes: int, formatFileSize: int -> string)
    requires files != []
    ensures var o := Process(files, maxSizeBytes, formatFileSize);
      && (!StartsWith(files[0].mimeType, VIDEO_MIME_PREFIX) ==> o == Rejected(NOT_VIDEO_ERROR))
      && (StartsWith(files[0].mimeType, VIDEO_MIME_PREFIX) && files[0].size > maxSizeBytes ==>
            o == Rejected(TooLargeError(formatFileSize(maxSizeBytes))))
      && o != Rejected(INVALID_FILE_FALLBACK)
  {
    assert NOT_VIDEO_ERROR != INVALID_FILE_FALLBACK by {
      assert NOT_VIDEO_ERROR[5] != INVALID_FILE_FALLBACK[5];
    }
    var sizeLabel := formatFileSize(maxSizeBytes);
    assert TooLargeError(sizeLabel) != INVALID_FILE_FALLBACK by {
      assert TooLargeError(sizeLabel)[5] == 'v' && INVALID_FILE_FALLBACK[5] == 'k';
    }
  }

  /** Files after the first never change the outcome. */
  lemma OnlyFirstFileMatters(files: seq<File>, maxSizeBytes: int, formatFileSize: int -> string)
    requires files != []
    ensures Process(files, maxSizeBytes, formatFileSize) == Process([files[0]], maxSizeBytes, formatFileSize)
  {
  }

  // ---------------------------------------------------------------- the component

  class UploadDropzone {
    const maxSizeBytes: int
    const formatFileSize: int -> string
    var isDragging: bool
    var error: Option<string>

    constructor (maxSizeBytes: int := DEFAULT_MAX_SIZE_BYTES, formatFileSize: int -> string)
      ensures this.maxSizeBytes == maxSizeBytes && this.formatFileSize == formatFileSize
      ensures !isDragging && error == None
    {
      this.maxSizeBytes := maxSizeBytes;
      this.formatFileSize := formatFileSize;
      isDragging := false;
      error := None;
    }

    method HandleDragEnter()
      modifies this
      ensures isDragging && error == old(error)
    {
      isDragging := true;
    }

    method HandleDragLeave()
      modifies this
      ensures !isDragging && error == old(error)
    {
      isDragging := false;
    }

    /** `processFiles`: a rejection sets the error; otherwise the error is left as it was. */
    method ProcessFiles(files: seq<File>) returns (forwarded: Option<File>)
      modifies this
      ensures isDragging == old(isDragging)
      ensures match Process(files, maxSizeBytes, formatFileSize)
        case NoFiles => forwarded == None && error == old(error)
        case Rejected(message) => forwarded == None && error == Some(message)
        case Selected(file) => forwarded == Some(file) && error == old(error)
    {
      if |files| == 0 {
        return None;
      }
      var file := files[0];
      var validation := ValidateVideoFile(file, maxSizeBytes, formatFileSize);
      if !validation.valid {
        error := Some(if validation.error.None? || validation.error.value == "" then INVALID_FILE_FALLBACK
                      else validation.error.value);
        return None;
      }
      forwarded := Some(file);
    }

    /** A drop ends the highlight, clears the old error and checks the dropped files. */
    method HandleDrop(files: seq<File>) returns (forwarded: Option<File>)
      modifies this
      ensures !isDragging
      ensures match Process(files, maxSizeBytes, formatFileSize)
        case Rejected(message) => forwarded == None && error == Some(message)
        case Selected(file) => forwarded == Some(file) && error == None
        case NoFiles => forwarded == None && error == None
    {
      isDragging := false;
      error := None;
      forwarded := ProcessFiles(files);
    }

    /** The file picker's `onChange`; `files` is `None` when the input reports no file list. */
    method HandleFileInput(files: Option<seq<File>>) returns (forwarded: Option<File>)
      modifies this
      ensures isDragging == old(isDragging)
      ensures files.None? ==> forwarded == None && error == None
      ensures files.Some? ==> match Process(files.value, maxSizeBytes, formatFileSize)
        case Rejected(message) => forwarded == None && error == Some(message)
        case Selected(file) => forwarded == Some(file) && error == None
        case NoFiles => forwarded == None && error == None
    {
      error := None;
      forwarded := None;
      if files.Some? {
        forwarded := ProcessFiles(files.value);
      }
    }
  }
}
