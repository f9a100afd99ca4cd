/** The Document Library page: the table of uploaded documents with its
    download and delete actions, and the three-step upload dialog
    (1 add files, 2 review, 3 done).

    Every handler that awaits a request is split in two: the method named
    after the handler runs it up to its first await (including a missing
    token, which throws before anything is awaited and so is caught at once),
    and a `...Settled` method runs the rest when the request settles, with
    the outcome as a parameter. The deferred dialog reset is an event of its
    own. Requests the page sends are appended to `requests`. */
module DataOnboarding {
  import opened Common

  // ---------------------------------------------------------------------------
  // Records
  // ---------------------------------------------------------------------------

  /** The display status of a document row. */
  datatype Status = Processed | Pending | Error

  /** One element of the `documents` array returned by GET /documents
      (JSON keys document_id, filename, file_size, mime_type, status,
      chunks_count, uploaded_at, updated_at). */
  datatype ApiDocument = ApiDocument(
    documentId: string,
    filename: string,
    fileSize: nat,
    mimeType: string,
    status: string,
    chunksCount: nat,
    uploadedAt: string,
    updatedAt: string)

  /** One row of the document table. */
  datatype Document = Document(
    id: string,
    name: string,
    category: string,
    size: string,
    uploadedAt: string,
    status: Status)

  /** The mapping of an API record to a table row. `formatBytes` and
      `formatDate` (the locale date of the upload time) are the page's
      formatters, taken as given. The row keeps the record's identifier and
      file name, always gets category "Other", and is Processed exactly when
      the record is completed, otherwise Pending: never Error. */
  function ToDocument(rec: ApiDocument, formatBytes: nat -> string, formatDate: string -> string): (d: Document)
    ensures d.id == rec.documentId && d.name == rec.filename
    ensures d.category == "Other"
    ensures d.size == formatBytes(rec.fileSize) && d.uploadedAt == formatDate(rec.uploadedAt)
    ensures d.status == Processed <==> rec.status == "completed"
    ensures d.status == Pending <==> rec.status != "completed"
  {
    Document(
      rec.documentId,
      rec.filename,
      "Other",
      formatBytes(rec.fileSize),
      formatDate(rec.uploadedAt),
      if rec.status == "completed" then Processed else Pending)
  }

  /** `data.documents.map(...)`: one row per record, in the records' order. */
  function ToDocuments(recs: seq<ApiDocument>, formatBytes: nat -> string, formatDate: string -> string): (r: seq<Document>)
    ensures |r| == |recs|
    ensures forall i :: 0 <= i < |recs| ==> r[i] == ToDocument(recs[i], formatBytes, formatDate)
  {
    if recs == [] then []
    else [ToDocument(recs[0], formatBytes, formatDate)] + ToDocuments(recs[1..], formatBytes, formatDate)
  }

  function CountCompleted(recs: seq<ApiDocument>): nat
  {
    if recs == [] then 0
    else (if recs[0].status == "completed" then 1 else 0) + CountCompleted(recs[1..])
  }

  function CountWithStatus(docs: seq<Document>, status: Status): nat
  {
    if docs == [] then 0
    else (if docs[0].status == status then 1 else 0) + CountWithStatus(docs[1..], status)
  }

  /** The table shows as many Processed badges as the response has completed
      records, the rest are Pending, and none is Error. */
  lemma {:induction false} StatusCounts(recs: seq<ApiDocument>, formatBytes: nat -> string, formatDate: string -> string)
    ensures var docs := ToDocuments(recs, formatBytes, formatDate);
      && CountWithStatus(docs, Processed) == CountCompleted(recs)
      && CountWithStatus(docs, Pending) == |recs| - CountCompleted(recs)
      && CountWithStatus(docs, Error) == 0
  {
    if recs != [] {
      var docs := ToDocuments(recs, formatBytes, formatDate);
      assert docs[1..] == ToDocuments(recs[1..], formatBytes, formatDate);
      StatusCounts(recs[1..], formatBytes, formatDate);
    }
  }

  // ---------------------------------------------------------------------------
  // Events and the page's state
  // ---------------------------------------------------------------------------

  /** The toast's `type`. */
  datatype ToastKind = SuccessToast | ErrorToast

  /** A request the page sends. */
  datatype Request = Upload(file: File) | ListDocuments | DeleteDocument(id: string) | DownloadDocument(id: string)

  /** How the batch of uploads settles: every upload call resolved (whatever
      its HTTP status, which is never looked at), or at least one rejected. */
  datatype BatchOutcome = AllResolved | SomeRejected

  /** How a single request settles: an OK response, a response that is not
      OK, or a rejection (network failure, unreadable body). */
  datatype Outcome = Ok | NotOk | Rejected

  /** How the document listing settles; `Listed` is an OK response whose
      body holds these records. */
  datatype ListOutcome = Listed(records: seq<ApiDocument>) | ListNotOk | ListRejected

  const UploadSucceeded := "Files uploaded successfully!"
  const UploadFailed := "Upload failed. Please try again."
  const LoadFailed := "Failed to load documents."
  const DeleteSucceeded := "Document deleted successfully!"
  const DeleteFailed := "Delete failed. Please try again."
  const DownloadFailed := "Download failed. Please try again."

  /** All of the page's state at one moment: the component's state variables,
      then what is in flight (`batchesInFlight` upload batches, listing,
      delete and download requests, and dialog resets waiting for their
      timer), then `orphanedBatches`, the number of dialog resets that ran
      while an upload was processing, each of which left that upload's batch
      running. */
  datatype PageState = PageState(
    isDialogOpen: bool,
    currentStep: int,
    uploadedFiles: seq<File>,
    isProcessing: bool,
    showToast: bool,
    toastMessage: string,
    toastKind: ToastKind,
    documents: seq<Document>,
    isLoadingDocuments: bool,
    downloadingId: Option<string>,
    requests: seq<Request>,
    batchesInFlight: nat,
    fetchesInFlight: nat,
    deletesInFlight: nat,
    downloadsInFlight: nat,
    resetsPending: nat,
    orphanedBatches: nat)

  /** The state the component starts in. */
  const Initial := PageState(false, 1, [], false, false, "", SuccessToast, [], true, None, [], 0, 0, 0, 0, 0, 0)

  /** One upload request per pending file, in the list's order. */
  function UploadRequests(files: seq<File>): (r: seq<Request>)
    ensures |r| == |files|
    ensures forall i :: 0 <= i < |files| ==> r[i] == Upload(files[i])
  {
    if files == [] then [] else [Upload(files[0])] + UploadRequests(files[1..])
  }

  /** The effect of fetchDocuments up to its await: with a token the listing
      request is sent and nothing else changes; without one the failure
      toast is raised and loading ends. The documents are never touched. */
  function FetchStarted(s: PageState, tokenPresent: bool): (r: PageState)
    ensures r.documents == s.documents && r.currentStep == s.currentStep
    ensures r.uploadedFiles == s.uploadedFiles && r.isProcessing == s.isProcessing
    ensures tokenPresent ==> r.requests == s.requests + [ListDocuments] && r.isLoadingDocuments == s.isLoadingDocuments
    ensures !tokenPresent ==> r.requests == s.requests && !r.isLoadingDocuments && r.showToast && r.toastKind == ErrorToast
  {
    if tokenPresent then
      s.(requests := s.requests + [ListDocuments], fetchesInFlight := s.fetchesInFlight + 1)
    else
      s.(showToast := true, toastMessage := LoadFailed, toastKind := ErrorToast, isLoadingDocuments := false)
  }

  /** `canProceedToReview`: Next on step 1 needs at least one pending file. */
  predicate CanProceedToReview(files: seq<File>)
  {
    |files| > 0
  }

  // ---------------------------------------------------------------------------
  // The component
  // ---------------------------------------------------------------------------

  class Page {
    const formatBytes: nat -> string
    const formatDate: string -> string

    var isDialogOpen: bool
    var currentStep: int
    var uploadedFiles: seq<File>
    var isProcessing: bool
    var showToast: bool
    var toastMessage: string
    var toastKind: ToastKind
    var documents: seq<Document>
    var isLoadingDocuments: bool
    var downloadingId: Option<string>

    var requests: seq<Request>
    var batchesInFlight: nat
    var fetchesInFlight: nat
    var deletesInFlight: nat
    var downloadsInFlight: nat
    var resetsPending: nat
    ghost var orphanedBatches: nat

    ghost function State(): PageState
      reads this
    {
      PageState(isDialogOpen, currentStep, uploadedFiles, isProcessing,
                showToast, toastMessage, toastKind, documents, isLoadingDocuments, downloadingId,
                requests, batchesInFlight, fetchesInFlight, deletesInFlight, downloadsInFlight,
                resetsPending, orphanedBatches)
    }

    /** The step never drops below 1. The step plus the batches still able
        to advance it is at most 3, except for batches orphaned by a dialog
        reset; and apart from those, at most the one batch that the current
        processing waits for is in flight. So as long as no reset has run
        during an upload, the step stays within 1..3. */
    ghost predicate Valid()
      reads this
      ensures Valid() && orphanedBatches == 0 ==> 1 <= currentStep <= 3
    {
      && 1 <= currentStep
      && currentStep + batchesInFlight <= 3 + orphanedBatches
      && batchesInFlight <= orphanedBatches + (if isProcessing then 1 else 0)
    }

    /** Mounting the page, which runs fetchDocuments once. */
    constructor (tokenPresent: bool, formatBytes: nat -> string, formatDate: string -> string)
      ensures Valid()
      ensures this.formatBytes == formatBytes && this.formatDate == formatDate
      ensures State() == FetchStarted(Initial, tokenPresent)
    {
      this.formatBytes := formatBytes;
      this.formatDate := formatDate;
      isDialogOpen, currentStep, uploadedFiles, isProcessing := false, 1, [], false;
      showToast, toastMessage, toastKind := false, "", SuccessToast;
      documents, isLoadingDocuments, downloadingId := [], true, None;
      requests := [];
      batchesInFlight, fetchesInFlight, deletesInFlight, downloadsInFlight := 0, 0, 0, 0;
      resetsPending, orphanedBatches := 0, 0;
      new;
      FetchDocuments(tokenPresent);
    }

    // --- document list --------------------------------------------------------

    /** fetchDocuments up to its await. */
    method FetchDocuments(tokenPresent: bool)
      requires Valid()
      modifies this
      ensures Valid()
      ensures State() == FetchStarted(old(State()), tokenPresent)
    {
      if !tokenPresent {
        showToast, toastMessage, toastKind := true, LoadFailed, ErrorToast;
        isLoadingDocuments := false;
        return;
      }
      requests := requests + [ListDocuments];
      fetchesInFlight := fetchesInFlight + 1;
    }

    /** The listing settles. Only an OK response with records replaces the
        table, with the records mapped in order; a failure raises the error
        toast and keeps the old rows. Loading has ended either way. */
    method FetchSettled(outcome: ListOutcome)
      requires Valid()
      requires fetchesInFlight > 0
      modifies this
      ensures Valid()
      ensures !isLoadingDocuments
      ensures outcome.Listed? ==> documents == ToDocuments(outcome.records, formatBytes, formatDate)
      ensures !outcome.Listed? ==> documents == old(documents)
      ensures State() ==
        if outcome.Listed? then
          old(State()).(documents := documents, isLoadingDocuments := false,
                        fetchesInFlight := old(fetchesInFlight) - 1)
        else
          old(State()).(showToast := true, toastMessage := LoadFailed, toastKind := ErrorToast,
                        isLoadingDocuments := false, fetchesInFlight := old(fetchesInFlight) - 1)
    {
      fetchesInFlight := fetchesInFlight - 1;
      if outcome.Listed? {
        documents := ToDocuments(outcome.records, formatBytes, formatDate);
      } else {
        showToast, toastMessage, toastKind := true, LoadFailed, ErrorToast;
      }
      isLoadingDocuments := false;
    }

    /** The delete button of a row, up to its await. A cancelled
        confirmation sends nothing and changes nothing; a missing token
        raises the error toast; otherwise the delete request is sent. The
        rows are never touched here. */
    method HandleDelete(doc: Document, confirmed: bool, tokenPresent: bool)
      requires Valid()
      requires !isLoadingDocuments && doc in documents
      modifies this
      ensures Valid()
      ensures documents == old(documents)
      ensures !confirmed ==> State() == old(State())
      ensures confirmed && !tokenPresent ==>
        State() == old(State()).(showToast := true, toastMessage := DeleteFailed, toastKind := ErrorToast)
      ensures confirmed && tokenPresent ==>
        State() == old(State()).(requests := old(requests) + [DeleteDocument(doc.id)],
                                 deletesInFlight := old(deletesInFlight) + 1)
    {
      if !confirmed {
        return;
      }
      if !tokenPresent {
        showToast, toastMessage, toastKind := true, DeleteFailed, ErrorToast;
        return;
      }
      requests := requests + [DeleteDocument(doc.id)];
      deletesInFlight := deletesInFlight + 1;
    }

    /** The delete request settles. Success raises the success toast and
        starts one refresh of the list; failure raises the error toast. The
        rows themselves are left as they are in both cases. */
    method DeleteSettled(outcome: Outcome, tokenPresent: bool)
      requires Valid()
      requires deletesInFlight > 0
      modifies this
      ensures Valid()
      ensures documents == old(documents)
      ensures outcome.Ok? ==>
        State() == FetchStarted(old(State()).(showToast := true, toastMessage := DeleteSucceeded,
                                              toastKind := SuccessToast,
                                              deletesInFlight := old(deletesInFlight) - 1), tokenPresent)
      ensures !outcome.Ok? ==>
        State() == old(State()).(showToast := true, toastMessage := DeleteFailed, toastKind := ErrorToast,
                                 deletesInFlight := old(deletesInFlight) - 1)
    {
      deletesInFlight := deletesInFlight - 1;
      if outcome.Ok? {
        showToast, toastMessage, toastKind := true, DeleteSucceeded, SuccessToast;
        FetchDocuments(tokenPresent);
      } else {
        showToast, toastMessage, toastKind := true, DeleteFailed, ErrorToast;
      }
    }

    /** The download button of a row (disabled while that row downloads), up
        to its await. The row is marked as downloading while the request is
        out; without a token the error toast is raised and the mark cleared
        at once. */
    method HandleDownload(doc: Document, tokenPresent: bool)
      requires Valid()
      requires !isLoadingDocuments && doc in documents && downloadingId != Some(doc.id)
      modifies this
      ensures Valid()
      ensures tokenPresent ==>
        State() == old(State()).(downloadingId := Some(doc.id),
                                 requests := old(requests) + [DownloadDocument(doc.id)],
                                 downloadsInFlight := old(downloadsInFlight) + 1)
      ensures !tokenPresent ==>
        State() == old(State()).(downloadingId := None, showToast := true,
                                 toastMessage := DownloadFailed, toastKind := ErrorToast)
    {
      downloadingId := Some(doc.id);
      if !tokenPresent {
        showToast, toastMessage, toastKind := true, DownloadFailed, ErrorToast;
        downloadingId := None;
        return;
      }
      requests := requests + [DownloadDocument(doc.id)];
      downloadsInFlight := downloadsInFlight + 1;
    }

    /** The download settles. Whatever the outcome, no row is marked as
        downloading afterwards; only a failure raises a toast. */
    method DownloadSettled(outcome: Outcome)
      requires Valid()
      requires downloadsInFlight > 0
      modifies this
      ensures Valid()
      ensures downloadingId == None
      ensures outcome.Ok? ==>
        State() == old(State()).(downloadingId := None, downloadsInFlight := old(downloadsInFlight) - 1)
      ensures !outcome.Ok? ==>
        State() == old(State()).(downloadingId := None, showToast := true, toastMessage := DownloadFailed,
                                 toastKind := ErrorToast, downloadsInFlight := old(downloadsInFlight) - 1)
    {
      downloadsInFlight := downloadsInFlight - 1;
      if !outcome.Ok? {
        showToast, toastMessage, toastKind := true, DownloadFailed, ErrorToast;
      }
      downloadingId := None;
    }

    /** The toast's close callback. */
    method DismissToast()
      requires Valid()
      modifies this`showToast
      ensures Valid()
      ensures State() == old(State()).(showToast := false)
    {
      showToast := false;
    }

    // --- upload dialog --------------------------------------------------------

    method HandleOpenDialog()
      requires Valid()
      modifies this`isDialogOpen
      ensures Valid()
      ensures State() == old(State()).(isDialogOpen := true)
    {
      isDialogOpen := true;
    }

    /** The dialog's close button (always enabled, also while uploading) and
        Finish on step 3: the dialog closes at once and a reset is scheduled
        for after the close animation. */
    method HandleCloseDialog()
      requires Valid()
      requires isDialogOpen
      modifies this`isDialogOpen, this`resetsPending
      ensures Valid()
      ensures State() == old(State()).(isDialogOpen := false, resetsPending := old(resetsPending) + 1)
    {
      isDialogOpen := false;
      resetsPending := resetsPending + 1;
    }

    /** The scheduled reset runs: step 1, no pending files, not processing.
        An upload batch still being processed is not cancelled; it becomes
        an orphan that will still advance the step when it settles. */
    method DeferredReset()
      requires Valid()
      requires resetsPending > 0
      modifies this
      ensures Valid()
      ensures State() == old(State()).(currentStep := 1, uploadedFiles := [], isProcessing := false,
                                       resetsPending := old(resetsPending) - 1,
                                       orphanedBatches := old(orphanedBatches) + (if old(isProcessing) then 1 else 0))
    {
      orphanedBatches := orphanedBatches + (if isProcessing then 1 else 0);
      currentStep, uploadedFiles, isProcessing := 1, [], false;
      resetsPending := resetsPending - 1;
    }

    /** Files dropped or picked on step 1: appended after the pending files,
        in the order given, with no de-duplication or validation. */
    method HandleAddFiles(files: seq<File>)
      requires Valid()
      requires isDialogOpen && currentStep == 1
      modifies this`uploadedFiles
      ensures Valid()
      ensures State() == old(State()).(uploadedFiles := old(uploadedFiles) + files)
      ensures |uploadedFiles| == |old(uploadedFiles)| + |files|
      ensures uploadedFiles[..|old(uploadedFiles)|] == old(uploadedFiles)
      ensures uploadedFiles[|old(uploadedFiles)|..] == files
    {
      uploadedFiles := uploadedFiles + files;
    }

    /** The remove button of a pending file on step 1: exactly the entries
        that are this file object go, the others keep their order. */
    method HandleRemoveFile(file: File)
      requires Valid()
      requires isDialogOpen && currentStep == 1 && file in uploadedFiles
      modifies this`uploadedFiles
      ensures Valid()
      ensures file !in uploadedFiles
      ensures |uploadedFiles| == |old(uploadedFiles)| - multiset(old(uploadedFiles))[file]
      ensures State() == old(State()).(uploadedFiles := Without(old(uploadedFiles), file))
    {
      uploadedFiles := Without(uploadedFiles, file);
    }

    /** "Next: Review", shown on step 1 and enabled only with pending files. */
    method HandleNext()
      requires Valid()
      requires isDialogOpen && currentStep < 3 && currentStep != 2
      requires CanProceedToReview(uploadedFiles)
      modifies this`currentStep
      ensures Valid()
      ensures State() == old(State()).(currentStep := old(currentStep) + 1)
    {
      currentStep := currentStep + 1;
    }

    /** Back, shown on steps 1 and 2 and disabled on step 1. It stays enabled
        while uploading. */
    method HandleBack()
      requires Valid()
      requires isDialogOpen && currentStep < 3 && currentStep != 1
      modifies this`currentStep
      ensures Valid()
      ensures State() == old(State()).(currentStep := old(currentStep) - 1)
    {
      currentStep := currentStep - 1;
    }

    /** "Confirm & Process" on step 2, disabled while processing, up to its
        await. The token is read for the first file: if it is missing no
        request is sent, the error toast is raised and the step and the
        pending files stay as they are. Otherwise one upload per pending file
        is sent, in order, and the page waits for the batch. */
    method HandleProcess(tokenPresent: bool)
      requires Valid()
      requires isDialogOpen && currentStep == 2 && !isProcessing
      modifies this
      ensures Valid()
      ensures !tokenPresent && old(uploadedFiles) != [] ==>
        State() == old(State()).(showToast := true, toastMessage := UploadFailed, toastKind := ErrorToast)
      ensures tokenPresent || old(uploadedFiles) == [] ==>
        State() == old(State()).(isProcessing := true,
                                 requests := old(requests) + UploadRequests(old(uploadedFiles)),
                                 batchesInFlight := old(batchesInFlight) + 1)
    {
      isProcessing := true;
      if !tokenPresent && uploadedFiles != [] {
        isProcessing := false;
        showToast, toastMessage, toastKind := true, UploadFailed, ErrorToast;
        return;
      }
      requests := requests + UploadRequests(uploadedFiles);
      batchesInFlight := batchesInFlight + 1;
    }

    /** An upload batch settles. If every upload resolved: processing ends,
        the success toast is raised, exactly one refresh of the list is
        started and the step advances by one. If any rejected: processing
        ends, the error toast is raised, and the step and the pending files
        are kept. */
    method UploadsSettled(outcome: BatchOutcome, tokenPresent: bool)
      requires Valid()
      requires batchesInFlight > 0
      modifies this
      ensures Valid()
      ensures !isProcessing && uploadedFiles == old(uploadedFiles)
      ensures outcome.AllResolved? ==>
        State() == FetchStarted(old(State()).(isProcessing := false, showToast := true,
                                              toastMessage := UploadSucceeded, toastKind := SuccessToast,
                                              batchesInFlight := old(batchesInFlight) - 1),
                                tokenPresent).(currentStep := old(currentStep) + 1)
      ensures outcome.SomeRejected? ==>
        State() == old(State()).(isProcessing := false, showToast := true, toastMessage := UploadFailed,
                                 toastKind := ErrorToast, batchesInFlight := old(batchesInFlight) - 1)
    {
      batchesInFlight := batchesInFlight - 1;
      isProcessing := false;
      if outcome.AllResolved? {
        showToast, toastMessage, toastKind := true, UploadSucceeded, SuccessToast;
        ghost var beforeFetch := State();
        assert beforeFetch == old(State()).(isProcessing := false, showToast := true,
                                            toastMessage := UploadSucceeded, toastKind := SuccessToast,
                                            batchesInFlight := old(batchesInFlight) - 1);
        FetchDocuments(tokenPresent);
        ghost var afterFetch := State();
        currentStep := currentStep + 1;
        assert State() == afterFetch.(currentStep := old(currentStep) + 1);
      } else {
        showToast, toastMessage, toastKind := true, UploadFailed, ErrorToast;
      }
    }
  }

  /** Closing the dialog while a batch is uploading lets a second batch start
      after the reset; when both succeed the step passes the last step. */
  method OrphanedBatchScenario() returns (step: int)
    ensures step == 4
  {
    var page := new Page(true, _ => "", d => d);
    var f := new File("catalog.pdf", 2048);
    page.HandleOpenDialog();
    page.HandleAddFiles([f]);
    assert page.currentStep == 1 && page.uploadedFiles == [f] && !page.isProcessing;
    page.HandleNext();
    page.HandleProcess(true);
    assert page.currentStep == 2 && page.isProcessing && page.batchesInFlight == 1;
    page.HandleCloseDialog();
    page.DeferredReset();
    assert page.currentStep == 1 && !page.isProcessing && page.batchesInFlight == 1;
    page.HandleOpenDialog();
    page.HandleAddFiles([f]);
    assert page.uploadedFiles == [f];
    page.HandleNext();
    page.HandleProcess(true);
    assert page.currentStep == 2 && page.batchesInFlight == 2;
    page.UploadsSettled(AllResolved, true);
    assert page.currentStep == 3 && page.batchesInFlight == 1;
    page.UploadsSettled(AllResolved, true);
    step := page.currentStep;
  }

  /** A row's download button is disabled only while that row downloads, so
      a second row's download can start while the first is out; when the
      first settles no row is marked as downloading although the second
      request is still out. */
  method OverlappingDownloadScenario() returns (marked: Option<string>, inFlight: nat)
    ensures marked == None && inFlight == 1
  {
    var page := new Page(true, _ => "", d => d);
    var a := ApiDocument("a", "a.pdf", 10, "application/pdf", "completed", 1, "", "");
    var b := ApiDocument("b", "b.pdf", 20, "application/pdf", "completed", 1, "", "");
    page.FetchSettled(Listed([a, b]));
    var rows := page.documents;
    assert |rows| == 2 && rows[0].id == "a" && rows[1].id == "b";
    page.HandleDownload(rows[0], true);
    assert page.downloadingId == Some("a") && page.downloadsInFlight == 1;
    page.HandleDownload(rows[1], true);
    assert page.downloadingId == Some("b") && page.downloadsInFlight == 2;
    page.DownloadSettled(Ok);
    marked, inFlight := page.downloadingId, page.downloadsInFlight;
  }
}
