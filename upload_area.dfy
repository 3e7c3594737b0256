/** The upload panel: its state is the selected file, its preview, whether an
    upload is running and the simulated progress. The promise and the two
    timers of `processFile` become explicit events: `Tick` is one firing
    of the 100 ms interval, `Complete` the settling of the `processDocument`
    call, `ResetAfterSuccess` the 500 ms timeout. */
module UploadAreaComponent {
  import opened Wrappers
  import opened Strings
  import opened Types
  import opened DocumentService

  /** The last progress value the interval steps to by itself. */
  const ProgressCap: int := 95

  /** One tick of the progress interval: a value of 95 or more is kept
      (that tick clears the interval), anything else grows by 5. */
  function NextProgress(p: int): (r: int)
    ensures p >= ProgressCap ==> r == p
    ensures p < ProgressCap ==> r == p + 5
  {
    if p >= ProgressCap then p else p + 5
  }

  /** The progress after `n` ticks from `p`. */
  function Ticks(p: int, n: nat): int
    decreases n
  {
    if n == 0 then p else Ticks(NextProgress(p), n - 1)
  }

  /** From a multiple of 5 no larger than 95, ticks climb in steps of 5
      and stop at 95. */
  lemma {:induction false} TicksClimbToCap(p: int, n: nat)
    requires 0 <= p <= ProgressCap && p % 5 == 0
    ensures Ticks(p, n) == if p + 5 * n <= ProgressCap then p + 5 * n else ProgressCap
    decreases n
  {
    if n > 0 {
      if p < ProgressCap {
        TicksClimbToCap(p + 5, n - 1);
      } else {
        TicksClimbToCap(p, n - 1);
      }
    }
  }

  /** One more tick advances the result of the earlier ones. */
  lemma {:induction false} TicksStep(p: int, n: nat)
    ensures Ticks(p, n + 1) == NextProgress(Ticks(p, n))
    decreases n
  {
    if n > 0 {
      TicksStep(NextProgress(p), n - 1);
    }
  }

  /** Starting from 0, ticks alone never take the progress beyond 95. */
  lemma TicksFromZeroBounded(n: nat)
    ensures 0 <= Ticks(0, n) <= ProgressCap
  {
    TicksClimbToCap(0, n);
  }

  class UploadArea {
    /** The mode passed in by the page. It is fixed here, while in the page
        it follows the feature toggle; no difference can be observed, since
        `processDocument` ignores it. */
    var feature: FeatureType
    var isDragging: bool
    var isUploading: bool
    var uploadProgress: int
    var selectedFile: Option<FileInfo>
    var preview: Option<string>

    /** The progress interval is running. */
    var intervalActive: bool
    /** The file of the `processDocument` call still awaited. */
    var inFlight: Option<FileInfo>
    /** The reset timeout after a success is pending. */
    var resetPending: bool
    /** The files whose `getFilePreview` call is still awaited, oldest first. */
    var pendingPreviews: seq<FileInfo>

    /** Progress moves in steps of 5 within [0, 100]; it is 0 whenever no
        upload runs; while processing is awaited it stays at most 95; the
        timers belong to a running upload. */
    ghost predicate Valid()
      reads this
    {
      && 0 <= uploadProgress <= 100
      && uploadProgress % 5 == 0
      && (!isUploading ==> uploadProgress == 0 && inFlight.None? && !resetPending)
      && (intervalActive ==> inFlight.Some?)
      && (inFlight.Some? ==> isUploading && uploadProgress <= ProgressCap && !resetPending)
      && (resetPending ==> uploadProgress == 100 && !intervalActive)
    }

    constructor (feature: FeatureType)
      ensures Valid()
      ensures this.feature == feature
      ensures !isDragging && !isUploading && uploadProgress == 0
      ensures selectedFile.None? && preview.None?
      ensures !intervalActive && inFlight.None? && !resetPending && pendingPreviews == []
    {
      this.feature := feature;
      isDragging := false;
      isUploading := false;
      uploadProgress := 0;
      selectedFile := None;
      preview := None;
      intervalActive := false;
      inFlight := None;
      resetPending := false;
      pendingPreviews := [];
    }

    method DragOver()
      requires Valid()
      modifies this`isDragging
      ensures Valid() && isDragging
    {
      isDragging := true;
    }

    method DragLeave()
      requires Valid()
      modifies this`isDragging
      ensures Valid() && !isDragging
    {
      isDragging := false;
    }

    /** `handleFile`, up to its `await`: the file is recorded at once and
        its `getFilePreview` call starts; the preview is set later, by
        `PreviewSettled`, if that call resolves. */
    method HandleFile(file: FileInfo)
      requires Valid()
      modifies this`selectedFile, this`pendingPreviews
      ensures Valid()
      ensures selectedFile == Some(file)
      ensures pendingPreviews == old(pendingPreviews) + [file]
    {
      selectedFile := Some(file);
      pendingPreviews := pendingPreviews + [file];
    }

    /** The awaited `getFilePreview` call of the `k`-th outstanding
        `handleFile` settles, `read` being the outcome of its data-URL read.
        A resolved preview is stored whatever is selected by then (the file
        may have been cancelled or replaced); a rejection is swallowed.
        Outstanding calls may settle in any order. */
    method PreviewSettled(k: nat, read: Option<string>)
      requires Valid() && k < |pendingPreviews|
      modifies this`preview, this`pendingPreviews
      ensures Valid()
      ensures pendingPreviews == old(pendingPreviews[..k] + pendingPreviews[k + 1..])
      ensures preview == match FilePreview(old(pendingPreviews[k]).mimeType, read)
                         case Ok(url) => Some(url)
                         case Err(_) => old(preview)
    {
      var outcome := FilePreview(pendingPreviews[k].mimeType, read);
      pendingPreviews := pendingPreviews[..k] + pendingPreviews[k + 1..];
      if outcome.Ok? {
        preview := Some(outcome.value);
      }
    }

    /** `handleDrop`: ends dragging, then handles the first dropped file if
        there is one. */
    method HandleDrop(files: seq<FileInfo>)
      requires Valid()
      modifies this`isDragging, this`selectedFile, this`pendingPreviews
      ensures Valid() && !isDragging
      ensures files == [] ==> selectedFile == old(selectedFile) && pendingPreviews == old(pendingPreviews)
      ensures files != [] ==> selectedFile == Some(files[0]) && pendingPreviews == old(pendingPreviews) + [files[0]]
    {
      isDragging := false;
      if |files| > 0 {
        HandleFile(files[0]);
      }
    }

    /** `handleFileSelect`: handles the first chosen file if there is one. */
    method HandleFileSelect(files: seq<FileInfo>)
      requires Valid()
      modifies this`selectedFile, this`pendingPreviews
      ensures Valid()
      ensures files == [] ==> selectedFile == old(selectedFile) && pendingPreviews == old(pendingPreviews)
      ensures files != [] ==> selectedFile == Some(files[0]) && pendingPreviews == old(pendingPreviews) + [files[0]]
    {
      if |files| > 0 {
        HandleFile(files[0]);
      }
    }

    /** `processFile`, up to the awaited `processDocument` call: without a
        selected file nothing happens; otherwise the upload starts, the
        interval is set and the selected file is handed to processing. It is
        reachable only through the "Process Document" button, which is not
        shown while an upload runs. */
    method ProcessFile() returns (started: bool)
      requires Valid() && !isUploading
      modifies this`isUploading, this`intervalActive, this`inFlight
      ensures Valid()
      ensures started <==> old(selectedFile).Some?
      ensures !started ==> !isUploading && !intervalActive && inFlight.None?
      ensures started ==> isUploading && intervalActive && inFlight == old(selectedFile)
      ensures uploadProgress == 0
    {
      if selectedFile.None? {
        return false;
      }
      isUploading := true;
      intervalActive := true;
      inFlight := selectedFile;
      started := true;
    }

    /** One firing of the interval: the progress takes one step; at 95 or
        more it is left as it is and the interval clears itself. */
    method Tick()
      requires Valid() && intervalActive
      modifies this`uploadProgress, this`intervalActive
      ensures Valid()
      ensures uploadProgress == NextProgress(old(uploadProgress))
      ensures intervalActive <==> old(uploadProgress) < ProgressCap
    {
      if uploadProgress >= ProgressCap {
        intervalActive := false;
      } else {
        uploadProgress := uploadProgress + 5;
      }
    }

    /** The awaited `processDocument` call settles. On success the document
        is handed to `onUploadComplete` (returned here), the interval is
        cleared, progress shows 100 and the reset is scheduled; the selected
        file stays until then. On failure the interval is cleared, the
        upload ends and progress returns to 0, and the selected file is
        kept. `env` is what the browser supplies to that call. */
    method Complete(env: BrowserEnv) returns (uploaded: Option<DocumentFile>)
      requires Valid() && inFlight.Some?
      modifies this`isUploading, this`uploadProgress, this`intervalActive, this`inFlight, this`resetPending
      ensures Valid()
      ensures inFlight.None? && !intervalActive
      ensures var outcome := ProcessDocument(old(inFlight).value, feature, env);
              && (outcome.Ok? ==> uploaded == Some(outcome.value) && isUploading && uploadProgress == 100 && resetPending)
              && (outcome.Err? ==> uploaded.None? && !isUploading && uploadProgress == 0 && !resetPending)
    {
      var outcome := ProcessDocument(inFlight.value, feature, env);
      inFlight := None;
      intervalActive := false;
      match outcome {
        case Ok(document) =>
          uploaded := Some(document);
          uploadProgress := 100;
          resetPending := true;
        case Err(_) =>
          uploaded := None;
          isUploading := false;
          uploadProgress := 0;
      }
    }

    /** The timeout after a success: the panel returns to its empty state. */
    method ResetAfterSuccess()
      requires Valid() && resetPending
      modifies this`isUploading, this`uploadProgress, this`selectedFile, this`preview, this`resetPending
      ensures Valid()
      ensures !isUploading && uploadProgress == 0 && selectedFile.None? && preview.None? && !resetPending
    {
      isUploading := false;
      uploadProgress := 0;
      selectedFile := None;
      preview := None;
      resetPending := false;
    }

    /** `cancelUpload`: forgets the selected file and its preview and
        nothing else; a running upload goes on. */
    method CancelUpload()
      requires Valid()
      modifies this`selectedFile, this`preview
      ensures Valid()
      ensures selectedFile.None? && preview.None?
    {
      selectedFile := None;
      preview := None;
    }
  }

  /** A whole successful upload seen from outside: select a file, process
      it, let the interval tick, settle, reset. The page receives exactly
      the record `processDocument` builds, the progress never passes 95
      before the result arrives, and the panel ends empty. */
  method SuccessfulUploadScenario(file: FileInfo, read: Option<string>, env: BrowserEnv, ticks: nat)
    returns (uploaded: Option<DocumentFile>, fired: nat, progressBeforeResult: int,
             finalFile: Option<FileInfo>, finalPreview: Option<string>)
    requires ProcessDocument(file, Ocr, env).Ok?
    ensures uploaded == Some(ProcessDocument(file, Vision, env).value)
    ensures fired <= ticks && progressBeforeResult == Ticks(0, fired)
    ensures 0 <= progressBeforeResult <= ProgressCap
    ensures finalFile.None? && finalPreview.None?
  {
    var area := new UploadArea(Ocr);
    area.HandleFileSelect([file]);
    area.PreviewSettled(0, read);
    var started := area.ProcessFile();
    fired := 0;
    while fired < ticks && area.intervalActive
      invariant area.Valid() && area.inFlight == Some(file) && area.feature == Ocr
      invariant area.uploadProgress == Ticks(0, fired)
      invariant fired <= ticks
    {
      area.Tick();
      TicksStep(0, fired);
      fired := fired + 1;
    }
    progressBeforeResult := area.uploadProgress;
    TicksFromZeroBounded(fired);
    uploaded := area.Complete(env);
    ProcessDocumentIgnoresFeature(file, env);
    area.ResetAfterSuccess();
    finalFile, finalPreview := area.selectedFile, area.preview;
  }

  /** A preview that lands late is stored anyway. (a) Drop an image and
      cancel before its read loads: the panel ends with no file but with the
      image's preview. (b) Drop an image, then a PDF before the image's read
      loads: when the image's read lands, the PDF is selected and the image's
      preview is shown beside it. */
  method LatePreviewScenario(image: FileInfo, data: string, pdf: FileInfo)
    returns (previewA: Option<string>, selectedA: Option<FileInfo>,
             previewB: Option<string>, selectedB: Option<FileInfo>)
    requires StartsWith(image.mimeType, "image/") && data != ""
    ensures selectedA.None? && previewA == Some(data)
    ensures selectedB == Some(pdf) && previewB == Some(data)
  {
    var a := new UploadArea(Ocr);
    a.HandleDrop([image]);
    a.CancelUpload();
    a.PreviewSettled(0, Some(data));
    previewA, selectedA := a.preview, a.selectedFile;

    var b := new UploadArea(Ocr);
    b.HandleDrop([image]);
    b.HandleDrop([pdf]);
    b.PreviewSettled(0, Some(data));
    previewB, selectedB := b.preview, b.selectedFile;
  }
}
