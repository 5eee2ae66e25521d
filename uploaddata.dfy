/** The bulk-upload page (`src/pages/UploadData.tsx`): the upload history,
    the statistics derived from it, the status colours and the simulated
    upload of `handleFileUpload`, whose timer callbacks become separate
    transitions and whose random draws become parameters. */
module UploadData {
  import opened Text
  import opened Seqs

  datatype UploadStatus = Success | Error | Processing

  /** The string each status has in the source. */
  function StatusKey(s: UploadStatus): string
  {
    match s
    case Success => "success"
    case Error => "error"
    case Processing => "processing"
  }

  datatype UploadHistory = UploadHistory(
    id: string,
    filename: string,
    uploadDate: string,
    status: UploadStatus,
    totalRows: int,
    successRows: int,
    errorRows: int,
    uploader: string)

  const MockUploads: seq<UploadHistory> := [
    UploadHistory("UP-001", "accounts_batch_january.csv", "2024-01-15 14:30", Success, 1245, 1245, 0, "admin@bank.com"),
    UploadHistory("UP-002", "new_accounts_batch_2.xlsx", "2024-01-14 09:15", Error, 892, 756, 136, "manager@bank.com"),
    UploadHistory("UP-003", "customer_updates.csv", "2024-01-13 16:45", Success, 456, 456, 0, "admin@bank.com")
  ]

  const DefaultStatusColor := "bg-muted/10 text-muted-foreground border-muted/20"

  /** `getStatusColor`, over the status string so that its default branch is kept. */
  function StatusColor(statusKey: string): (r: string)
    ensures r == DefaultStatusColor <==> statusKey !in {"success", "error", "processing"}
  {
    if statusKey == "success" then "bg-success/10 text-success border-success/20"
    else if statusKey == "error" then "bg-destructive/10 text-destructive border-destructive/20"
    else if statusKey == "processing" then "bg-warning/10 text-warning border-warning/20"
    else DefaultStatusColor
  }

  /** Every status gets its own colour, never the fallback; any other string gets the fallback. */
  lemma StatusColorDistinct(s1: UploadStatus, s2: UploadStatus, other: string)
    requires other !in {"success", "error", "processing"}
    ensures StatusColor(StatusKey(s1)) != DefaultStatusColor
    ensures StatusColor(StatusKey(s1)) == StatusColor(StatusKey(s2)) <==> s1 == s2
    ensures StatusColor(other) == DefaultStatusColor
  {
  }

  predicate IsSuccessful(u: UploadHistory)
  {
    u.status == Success
  }

  /** `uploadHistory.reduce((sum, u) => sum + u.successRows, 0)`: a left fold,
      so the last entry is added last. */
  function TotalRecords(h: seq<UploadHistory>): (r: int)
    ensures (forall k :: 0 <= k < |h| ==> h[k].successRows >= 0) ==> r >= 0
    decreases |h|
  {
    if h == [] then 0 else TotalRecords(h[..|h| - 1]) + h[|h| - 1].successRows
  }

  /** The integer part of `stats`; `errorRate` is a floating-point percentage and is not modelled. */
  datatype UploadStats = UploadStats(totalUploads: nat, successfulUploads: nat, totalRecords: int)

  function Stats(h: seq<UploadHistory>): (r: UploadStats)
    ensures r.totalUploads == |h| && r.successfulUploads <= r.totalUploads
  {
    UploadStats(|h|, Count(h, IsSuccessful), TotalRecords(h))
  }

  /** Successful uploads are the history entries with status success, never
      more than all uploads. */
  lemma SuccessfulUploadsCounts(h: seq<UploadHistory>, u: UploadHistory)
    ensures Stats(h).successfulUploads <= Stats(h).totalUploads
    ensures u in Filter(h, IsSuccessful) <==> u in h && u.status == Success
  {
    FilterMembership(h, IsSuccessful, u);
  }

  /** Putting an entry in front of the history adds it to the fold. */
  lemma {:induction false} TotalRecordsPrepend(u: UploadHistory, h: seq<UploadHistory>)
    ensures TotalRecords([u] + h) == u.successRows + TotalRecords(h)
    decreases |h|
  {
    if h != [] {
      var h' := [u] + h;
      assert h'[..|h'| - 1] == [u] + h[..|h| - 1];
      TotalRecordsPrepend(u, h[..|h| - 1]);
    }
  }

  /** How each statistic moves when an upload is prepended. */
  lemma StatsPrepend(u: UploadHistory, h: seq<UploadHistory>)
    ensures Stats([u] + h).totalUploads == Stats(h).totalUploads + 1
    ensures Stats([u] + h).successfulUploads == Stats(h).successfulUploads + (if u.status == Success then 1 else 0)
    ensures Stats([u] + h).totalRecords == Stats(h).totalRecords + u.successRows
  {
    assert ([u] + h)[1..] == h;
    TotalRecordsPrepend(u, h);
  }

  /** The statistics shown for the seed history. */
  lemma MockStats()
    ensures Stats(MockUploads) == UploadStats(3, 2, 2457)
  {
    var h := MockUploads;
    assert h[..1][..0] == [];
    assert h[..2][..1] == h[..1];
    assert h[..3] == h;
    assert TotalRecords(h[..1]) == 1245;
    assert TotalRecords(h[..2]) == 1245 + 756;
    assert Count(h, IsSuccessful) == 2;
  }

  const CurrentUploader := "current@user.com"

  /** The record built when processing finishes: `UP-` and the clock reading
      as id, the first file's name, status success, and a success count that
      is recomputed from the total and error counts, so the separate draw for
      it never reaches the history. */
  function NewUpload(now: nat, filename: string, uploadDate: string, totalRows: int, errorRows: int): (r: UploadHistory)
    ensures r.successRows + r.errorRows == r.totalRows
    ensures r.status == Success && r.filename == filename && r.uploader == CurrentUploader
  {
    UploadHistory("UP-" + DecimalString(now), filename, uploadDate, Success, totalRows, totalRows - errorRows, errorRows, CurrentUploader)
  }

  /** `Math.floor(Math.random() * 1000) + 100` */
  predicate TotalRowsDraw(n: int) { 100 <= n <= 1099 }

  /** `Math.floor(Math.random() * 950) + 50` */
  predicate SuccessRowsDraw(n: int) { 50 <= n <= 999 }

  /** `Math.floor(Math.random() * 50)` */
  predicate ErrorRowsDraw(n: int) { 0 <= n <= 49 }

  /** For every draw the code can make, the new record's counts are
      consistent: success and error rows add up to the total, and at least
      51 rows succeed. */
  lemma NewUploadCounts(now: nat, filename: string, uploadDate: string, totalRows: int, errorRows: int)
    requires TotalRowsDraw(totalRows) && ErrorRowsDraw(errorRows)
    ensures var u := NewUpload(now, filename, uploadDate, totalRows, errorRows);
      && u.successRows + u.errorRows == u.totalRows
      && 51 <= u.successRows <= u.totalRows
      && u.status == Success && u.filename == filename
      && u.id[..3] == "UP-" && IsDigits(u.id[3..]) && DecimalValue(u.id[3..]) == now
  {
    var u := NewUpload(now, filename, uploadDate, totalRows, errorRows);
    assert u.id[3..] == DecimalString(now);
    DecimalRoundTrip(now);
  }

  /** The upload page's state. The simulated upload runs as: `HandleFileUpload`
      starts it, `ProgressTick` is the 200 ms interval, `FinishProcessing` the
      3 s timeout and `ResetAfterUpload` the 1 s timeout after it. */
  class UploadPage {
    var isDragOver: bool
    var uploadHistory: seq<UploadHistory>
    var isUploading: bool
    var uploadProgress: real
    /** The progress interval has not been cleared yet. */
    var progressRunning: bool
    /** The 3 s processing timeout is scheduled. */
    var processingPending: bool
    /** The 1 s reset timeout is scheduled. */
    var resetPending: bool
    /** `files[0].name`, captured by the processing timeout. */
    var pendingFilename: string

    /** The timers only run during an upload, progress stays within
        [0, 105), and once processing is done it reads 100 until the reset. */
    ghost predicate Valid()
      reads this
    {
      && (progressRunning ==> processingPending)
      && (processingPending ==> isUploading && !resetPending)
      && (resetPending ==> isUploading && uploadProgress == 100.0)
      && 0.0 <= uploadProgress < 105.0
    }

    constructor()
      ensures Valid()
      ensures uploadHistory == MockUploads
      ensures !isUploading && !isDragOver && uploadProgress == 0.0
      ensures !progressRunning && !processingPending && !resetPending
    {
      isDragOver := false;
      uploadHistory := MockUploads;
      isUploading := false;
      uploadProgress := 0.0;
      progressRunning := false;
      processingPending := false;
      resetPending := false;
      pendingFilename := "";
    }

    /** `handleDragOver` */
    method DragOver()
      modifies this`isDragOver
      ensures isDragOver
    {
      isDragOver := true;
    }

    /** `handleDragLeave` */
    method DragLeave()
      modifies this`isDragOver
      ensures !isDragOver
    {
      isDragOver := false;
    }

    /** `handleFileUpload(files)`, given the names of the chosen files. The
        drop zone and the file input are not rendered while an upload runs,
        so it is only reachable when none is in progress. */
    method HandleFileUpload(files: seq<string>)
      requires Valid() && !isUploading
      modifies this
      ensures Valid()
      ensures isDragOver == old(isDragOver) && uploadHistory == old(uploadHistory)
      ensures files == [] ==>
        && isUploading == old(isUploading) && uploadProgress == old(uploadProgress)
        && progressRunning == old(progressRunning) && processingPending == old(processingPending)
        && resetPending == old(resetPending) && pendingFilename == old(pendingFilename)
      ensures files != [] ==>
        && isUploading && uploadProgress == 0.0
        && progressRunning && processingPending && !resetPending && pendingFilename == files[0]
    {
      if |files| == 0 {
        return;
      }
      isUploading := true;
      uploadProgress := 0.0;
      progressRunning := true;
      processingPending := true;
      pendingFilename := files[0];
    }

    /** `handleDrop`: clears the drag highlight, then hands the dropped files
        to `handleFileUpload`. */
    method HandleDrop(files: seq<string>)
      requires Valid() && !isUploading
      modifies this
      ensures Valid()
      ensures !isDragOver && uploadHistory == old(uploadHistory)
      ensures files == [] ==>
        && isUploading == old(isUploading) && uploadProgress == old(uploadProgress)
        && progressRunning == old(progressRunning) && processingPending == old(processingPending)
        && resetPending == old(resetPending) && pendingFilename == old(pendingFilename)
      ensures files != [] ==>
        && isUploading && uploadProgress == 0.0
        && progressRunning && processingPending && !resetPending && pendingFilename == files[0]
    {
      isDragOver := false;
      HandleFileUpload(files);
    }

    /** One firing of the progress interval; `draw` is `Math.random() * 10`.
        At 95 or more the interval stops and progress is pinned to 95. */
    method ProgressTick(draw: real)
      requires Valid() && progressRunning
      requires 0.0 <= draw < 10.0
      modifies this`uploadProgress, this`progressRunning
      ensures Valid()
      ensures old(uploadProgress) >= 95.0 ==> uploadProgress == 95.0 && !progressRunning
      ensures old(uploadProgress) < 95.0 ==> uploadProgress == old(uploadProgress) + draw && progressRunning
    {
      if uploadProgress >= 95.0 {
        progressRunning := false;
        uploadProgress := 95.0;
      } else {
        uploadProgress := uploadProgress + draw;
      }
    }

    /** The 3 s processing timeout: stops the interval, shows 100, builds the
        new record (recomputing `successRows` after construction) and puts it
        in front of the history. `now` is `Date.now()`; the row counts are the
        integer draws. */
    method FinishProcessing(now: nat, uploadDate: string, totalRows: int, successDraw: int, errorRows: int)
      requires Valid() && processingPending
      requires TotalRowsDraw(totalRows) && SuccessRowsDraw(successDraw) && ErrorRowsDraw(errorRows)
      modifies this`progressRunning, this`uploadProgress, this`uploadHistory, this`processingPending, this`resetPending
      ensures Valid()
      ensures uploadProgress == 100.0 && !progressRunning && !processingPending && resetPending
      ensures uploadHistory == [NewUpload(now, pendingFilename, uploadDate, totalRows, errorRows)] + old(uploadHistory)
    {
      progressRunning := false;
      uploadProgress := 100.0;
      var newUpload := UploadHistory("UP-" + DecimalString(now), pendingFilename, uploadDate, Success,
        totalRows, successDraw, errorRows, CurrentUploader);
      newUpload := newUpload.(successRows := newUpload.totalRows - newUpload.errorRows);
      uploadHistory := [newUpload] + uploadHistory;
      processingPending := false;
      resetPending := true;
    }

    /** The 1 s timeout after processing: the upload panel gives way to the drop zone again. */
    method ResetAfterUpload()
      requires Valid() && resetPending
      modifies this`isUploading, this`uploadProgress, this`resetPending
      ensures Valid()
      ensures !isUploading && uploadProgress == 0.0 && !resetPending
    {
      isUploading := false;
      uploadProgress := 0.0;
      resetPending := false;
    }

    /** The page's statistics for the current history. */
    function CurrentStats(): UploadStats
      reads this
    {
      Stats(uploadHistory)
    }
  }

  /** One whole upload of a file on a fresh page: the history grows by one
      successful entry at the front and the counters follow. */
  method UploadOneFile(filename: string, now: nat, uploadDate: string, totalRows: int, successDraw: int, errorRows: int)
    returns (stats: UploadStats, first: UploadHistory)
    requires TotalRowsDraw(totalRows) && SuccessRowsDraw(successDraw) && ErrorRowsDraw(errorRows)
    ensures stats == UploadStats(4, 3, 2457 + totalRows - errorRows)
    ensures first.filename == filename && first.status == Success && first.uploader == CurrentUploader
  {
    var page := new UploadPage();
    page.HandleFileUpload([filename]);
    page.ProgressTick(5.0);
    page.FinishProcessing(now, uploadDate, totalRows, successDraw, errorRows);
    page.ResetAfterUpload();
    first := page.uploadHistory[0];
    MockStats();
    StatsPrepend(first, MockUploads);
    stats := page.CurrentStats();
  }
}
