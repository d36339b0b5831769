/**
 * The file picker of app/components/FileUploader.tsx: the 20 MiB ceiling it hands to the
 * drop zone, the file it keeps, the error it shows for a rejected drop, and what it reports
 * to its `onFileSelect` callback. The drop zone's own type and size filtering is not modelled;
 * its rejection codes are inputs.
 */
module Uploader {
  import opened Remote

  /** A browser `File`; its bytes are not modelled. */
  datatype File = File(name: string, size: nat)

  /** `maxFileSize`: 20 MiB in bytes. */
  const MaxFileSize: nat := 20 * 1024 * 1024

  /** The ceiling in bytes. */
  lemma MaxFileSizeInBytes()
    ensures MaxFileSize == 20971520
  {
  }

  /** One error the drop zone attached to a rejected file. */
  datatype FileError = FileError(code: string, message: string)

  datatype Rejection = Rejection(file: File, errors: seq<FileError>)

  const InvalidType := "file-invalid-type"
  const TooLarge := "file-too-large"

  const InvalidTypeMessage := "Invalid file type. Only PDF files are allowed."
  const GenericMessage := "Failed to upload file. Please try again."

  /** The too-large message around `formatSize(maxFileSize)`, whose text is an input here. */
  function TooLargeMessage(maxSizeText: string): string {
    "File is too large. Max allowed size is " + maxSizeText + "."
  }

  /** `errors.some((e) => e.code === code)`, scanning from the front. */
  function SomeHasCode(errors: seq<FileError>, code: string): (found: bool)
    ensures found <==> exists i :: 0 <= i < |errors| && errors[i].code == code
    decreases |errors|
  {
    if errors == [] then false
    else errors[0].code == code || SomeHasCode(errors[1..], code)
  }

  /** The message shown for the first rejected file, by priority of its error codes. */
  function RejectionMessage(errors: seq<FileError>, maxSizeText: string): (msg: string)
    // a wrong type wins, even when the file is also too large
    ensures (exists i :: 0 <= i < |errors| && errors[i].code == InvalidType) ==> msg == InvalidTypeMessage
    ensures (forall i :: 0 <= i < |errors| ==> errors[i].code != InvalidType) ==>
      && ((exists i :: 0 <= i < |errors| && errors[i].code == TooLarge) ==> msg == TooLargeMessage(maxSizeText))
      && ((forall i :: 0 <= i < |errors| ==> errors[i].code != TooLarge) ==> msg == GenericMessage)
    ensures msg != ""
  {
    if SomeHasCode(errors, InvalidType) then InvalidTypeMessage
    else if SomeHasCode(errors, TooLarge) then TooLargeMessage(maxSizeText)
    else GenericMessage
  }

  /** JavaScript truthiness of the `error` state. */
  predicate Shown(error: Option<string>) {
    error.Some? && error.value != ""
  }

  class FileUploader {
    var file: Option<File>
    var error: Option<string>
    /** Every value handed to `onFileSelect`, oldest first. */
    var selections: seq<Option<File>>

    constructor ()
      ensures file.None? && error.None? && selections == []
    {
      file, error, selections := None, None, [];
    }

    /** `onDrop`: keep the first accepted file or nothing, clear the error, report the choice. */
    method OnDrop(accepted: seq<File>)
      modifies this
      ensures file == if |accepted| > 0 then Some(accepted[0]) else None
      ensures error.None?
      ensures selections == old(selections) + [file]
    {
      var selected := if |accepted| > 0 then Some(accepted[0]) else None;
      file := selected;
      error := None;
      selections := selections + [selected];
    }

    /** The render-time rejection branch: an error already shown is never replaced. */
    method ReportRejection(rejections: seq<Rejection>, maxSizeText: string)
      modifies this
      ensures error == if |rejections| > 0 && !Shown(old(error))
        then Some(RejectionMessage(rejections[0].errors, maxSizeText))
        else old(error)
      ensures file == old(file) && selections == old(selections)
    {
      if |rejections| > 0 && !Shown(error) {
        error := Some(RejectionMessage(rejections[0].errors, maxSizeText));
      }
    }

    /** `handleRemove`: drop the file and report `null`; the error stays. */
    method HandleRemove()
      modifies this
      ensures file.None? && error == old(error)
      ensures selections == old(selections) + [None]
    {
      file := None;
      selections := selections + [None];
    }
  }
}
