/** The bulk-upload dialog of the client list: a drop zone that takes a CSV
    or Excel file, a two-second simulated processing, and a results screen
    from which the upload is confirmed or started over. */
module BulkUpload {
  import opened Common
  import opened Text

  /** A chosen file as the browser describes it. */
  datatype FileInfo = FileInfo(name: string, mimeType: string)

  datatype UploadStep = Upload | Processing | Results

  /** A file is taken when the browser calls it `text/csv`, or its name
      ends in `.xlsx` or `.xls`. */
  function Accepted(f: FileInfo): (r: bool)
    ensures f.mimeType == "text/csv" ==> r
    ensures EndsWith(f.name, ".xlsx") || EndsWith(f.name, ".xls") ==> r
    ensures r && f.mimeType != "text/csv" ==> |f.name| >= 4 && f.name[|f.name| - 4..] in {".xls", "xlsx"}
  {
    assert EndsWith(f.name, ".xlsx") ==> f.name[|f.name| - 4..] == f.name[|f.name| - 5..][1..];
    f.mimeType == "text/csv" || EndsWith(f.name, ".xlsx") || EndsWith(f.name, ".xls")
  }

  /** A CSV file is judged by its type alone: one the browser labels as
      an Excel sheet is turned away, while an Excel name passes with any
      type. */
  lemma AcceptedExamples()
    ensures Accepted(FileInfo("clients.xlsx", ""))
    ensures Accepted(FileInfo("clients.xls", "application/vnd.ms-excel"))
    ensures Accepted(FileInfo("clients.txt", "text/csv"))
    ensures !Accepted(FileInfo("clients.csv", "application/vnd.ms-excel"))
  {
    assert "clients.xlsx"[7..] == ".xlsx";
    assert "clients.xls"[7..] == ".xls";
    var name := "clients.csv";
    assert name[6..] != ".xlsx" by { assert name[6..][4] != ".xlsx"[4]; }
    assert name[7..] != ".xls" by { assert name[7..][3] != ".xls"[3]; }
  }

  class UploadModal {
    var step: UploadStep
    var dragActive: bool
    var uploadedFile: Option<FileInfo>
    /** Completions of the two-second processing timer that are scheduled
        and have not fired yet; the dialog as written never cancels one. */
    var pendingTimers: nat

    /** The states the dialog is meant to be in: a file exactly while it
        is processed or its results are shown, and a timer pending exactly
        while it is processed. */
    ghost predicate Consistent()
      reads this
    {
      && (uploadedFile.Some? <==> step != Upload)
      && (step == Processing <==> pendingTimers == 1)
      && pendingTimers <= 1
    }

    constructor()
      ensures Consistent()
      ensures step == Upload && !dragActive && uploadedFile.None? && pendingTimers == 0
    {
      step := Upload;
      dragActive := false;
      uploadedFile := None;
      pendingTimers := 0;
    }

    /** `dragenter`/`dragover` light up the drop zone, `dragleave` dims it. */
    method Drag(entering: bool)
      modifies this
      ensures dragActive == entering
      ensures step == old(step) && uploadedFile == old(uploadedFile) && pendingTimers == old(pendingTimers)
    {
      dragActive := entering;
    }

    /** `handleFileUpload`, reachable from the drop zone and the file
        picker, which only the upload screen shows: an accepted file is
        kept and processing starts with a timer; any other file changes
        nothing. */
    method HandleFileUpload(f: FileInfo)
      requires step == Upload
      modifies this
      ensures Accepted(f) ==> step == Processing && uploadedFile == Some(f) && pendingTimers == old(pendingTimers) + 1
      ensures !Accepted(f) ==> step == old(step) && uploadedFile == old(uploadedFile) && pendingTimers == old(pendingTimers)
      ensures dragActive == old(dragActive)
      ensures old(Consistent()) && old(pendingTimers) == 0 ==> Consistent()
    {
      if Accepted(f) {
        uploadedFile := Some(f);
        step := Processing;
        pendingTimers := pendingTimers + 1;
      }
    }

    /** `handleDrop`: the drop zone dims, and the first dropped file, if
        any, is uploaded. */
    method HandleDrop(files: seq<FileInfo>)
      requires step == Upload
      modifies this
      ensures !dragActive
      ensures files != [] && Accepted(files[0]) ==>
        step == Processing && uploadedFile == Some(files[0]) && pendingTimers == old(pendingTimers) + 1
      ensures files == [] || !Accepted(files[0]) ==>
        step == old(step) && uploadedFile == old(uploadedFile) && pendingTimers == old(pendingTimers)
    {
      dragActive := false;
      if files != [] {
        HandleFileUpload(files[0]);
      }
    }

    /** A processing timer fires: the results screen is shown, whatever
        the dialog shows at that moment. */
    method TimerFires()
      requires pendingTimers > 0
      modifies this
      ensures step == Results && pendingTimers == old(pendingTimers) - 1
      ensures uploadedFile == old(uploadedFile) && dragActive == old(dragActive)
      ensures old(Consistent()) ==> Consistent()
    {
      step := Results;
      pendingTimers := pendingTimers - 1;
    }

    /** `resetUpload` as written: back to the upload screen with no file,
        but a scheduled processing timer stays scheduled. */
    method ResetUpload()
      modifies this
      ensures step == Upload && uploadedFile.None? && !dragActive
      ensures pendingTimers == old(pendingTimers)
      ensures old(Consistent()) && old(step) != Processing ==> Consistent()
      ensures old(Consistent()) && old(step) == Processing ==> pendingTimers == 1 && !Consistent()
    {
      step := Upload;
      uploadedFile := None;
      dragActive := false;
    }

    /** `resetUpload` with the processing timer cleared, as the dialog
        evidently intends: the dialog is then consistent whatever state it
        was in. */
    method ResetUploadCancelling()
      modifies this
      ensures step == Upload && uploadedFile.None? && !dragActive && pendingTimers == 0
      ensures Consistent()
    {
      step := Upload;
      uploadedFile := None;
      dragActive := false;
      pendingTimers := 0;
    }

    /** `handleConfirmUpload` and the close button: the dialog asks to be
        closed and runs `resetUpload` as written, so a processing timer
        stays scheduled and the dialog stays mounted. */
    method Close() returns (closeRequested: bool)
      modifies this
      ensures closeRequested
      ensures step == Upload && uploadedFile.None? && !dragActive
      ensures pendingTimers == old(pendingTimers)
      ensures old(Consistent()) && old(step) != Processing ==> Consistent()
      ensures old(Consistent()) && old(step) == Processing ==> pendingTimers == 1 && !Consistent()
    {
      closeRequested := true;
      ResetUpload();
    }

    /** The same, with the corrected reset that cancels the timer. */
    method CloseCorrected() returns (closeRequested: bool)
      modifies this
      ensures closeRequested
      ensures step == Upload && uploadedFile.None? && !dragActive && pendingTimers == 0
      ensures Consistent()
    {
      closeRequested := true;
      ResetUploadCancelling();
    }
  }

  /** As written: a file is dropped, the dialog is closed while it is
      processed, and two seconds later the results screen is shown for no
      file at all. */
  method StaleTimerAsWritten() returns (step: UploadStep, file: Option<FileInfo>)
    ensures step == Results && file.None?
  {
    var modal := new UploadModal();
    modal.HandleFileUpload(FileInfo("clients.xlsx", ""));
    var _ := modal.Close();
    modal.TimerFires();
    step, file := modal.step, modal.uploadedFile;
  }

  /** With the timer cleared on reset, the same sequence of events ends on
      the upload screen, and the timer has nothing left to fire. */
  method StaleTimerCancelled() returns (step: UploadStep, file: Option<FileInfo>, pending: nat)
    ensures step == Upload && file.None? && pending == 0
  {
    var modal := new UploadModal();
    modal.HandleFileUpload(FileInfo("clients.xlsx", ""));
    var _ := modal.CloseCorrected();
    step, file, pending := modal.step, modal.uploadedFile, modal.pendingTimers;
  }
}
