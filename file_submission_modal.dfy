/** The student's upload dialog (src/components/student/FileSubmissionModal.tsx):
    the chosen file, a description and a file type, checked in a fixed order
    on submit and reset on close. */
module FileSubmissionModal {
  import opened Wrappers
  import opened Text

  /** A file picked in the browser, as far as the dialog looks at it. */
  datatype PickedFile = PickedFile(name: string, size: nat)

  const NoFileMessage: string := "يرجى اختيار ملف"
  const NoDescriptionMessage: string := "يرجى كتابة وصف للملف"
  const DefaultType: string := "other"

  /** The outcome of handleSubmit: an error toast, or a call of onSubmit
      with the file and its metadata. */
  datatype SubmitResult =
    | Rejected(message: string)
    | Submitted(file: PickedFile, description: string, fileType: string)

  /** The checks of handleSubmit, file first: a missing file is reported
      even when the description is blank too; a description made only of
      whitespace is refused; otherwise the description goes out as typed,
      untrimmed, with the chosen type. */
  function CheckSubmission(file: Option<PickedFile>, description: string, fileType: string): (r: SubmitResult)
    ensures file.None? ==> r == Rejected(NoFileMessage)
    ensures file.Some? && Blank(description) ==> r == Rejected(NoDescriptionMessage)
    ensures r.Submitted? <==> file.Some? && !Blank(description)
    ensures r.Submitted? ==> r == Submitted(file.value, description, fileType)
  {
    TrimEmptyIffBlank(description);
    if file.None? then Rejected(NoFileMessage)
    else if Trim(description) == "" then Rejected(NoDescriptionMessage)
    else Submitted(file.value, description, fileType)
  }

  class SubmissionDialog {
    var file: Option<PickedFile>
    var description: string
    var fileType: string

    /** The dialog starts with no file, no description and type 'other'. */
    constructor ()
      ensures file == None && description == "" && fileType == DefaultType
    {
      file := None;
      description := "";
      fileType := DefaultType;
    }

    /** handleFileChange: the first picked file replaces the current one; an
        empty pick changes nothing. */
    method HandleFileChange(picked: seq<PickedFile>)
      modifies this
      ensures picked != [] ==> file == Some(picked[0])
      ensures picked == [] ==> file == old(file)
      ensures description == old(description) && fileType == old(fileType)
    {
      if |picked| > 0 {
        file := Some(picked[0]);
      }
    }

    /** The remove button beside a chosen file. */
    method RemoveFile()
      modifies this
      ensures file == None && description == old(description) && fileType == old(fileType)
    {
      file := None;
    }

    method SetDescription(v: string)
      modifies this
      ensures description == v && file == old(file) && fileType == old(fileType)
    {
      description := v;
    }

    method SetType(v: string)
      modifies this
      ensures fileType == v && file == old(file) && description == old(description)
    {
      fileType := v;
    }

    /** handleSubmit reads the fields and changes none of them: a submitted
        dialog keeps its contents until it is closed. */
    method HandleSubmit() returns (r: SubmitResult)
      ensures r == CheckSubmission(file, description, fileType)
    {
      if file.None? {
        return Rejected(NoFileMessage);
      }
      TrimEmptyIffBlank(description);
      if Trim(description) == "" {
        return Rejected(NoDescriptionMessage);
      }
      r := Submitted(file.value, description, fileType);
    }

    /** handleClose: back to the starting state. */
    method HandleClose()
      modifies this
      ensures file == None && description == "" && fileType == DefaultType
    {
      file := None;
      description := "";
      fileType := DefaultType;
    }
  }

  /** A dialog that was just opened or closed refuses to submit, asking for
      a file. */
  lemma FreshDialogAsksForFile(fileType: string)
    ensures CheckSubmission(None, "", fileType) == Rejected(NoFileMessage)
    ensures forall d :: CheckSubmission(None, d, fileType) == Rejected(NoFileMessage)
  {
  }
}
