/**
 * The importer's upload pane (my-sites/importer/uploading-pane.jsx): whether
 * it accepts a file, which message it shows for the upload stage, and the
 * importer data it sends with an upload.
 *
 * `importerStatus` is the plain object the pane receives; its
 * `importerState`, `filename` and `importerId` are read from it.  The
 * importer states are named constants of the app-state table, which is not
 * part of this model; the names the pane uses are a parameter
 * (`AppStates`), known only to be distinct non-empty strings.
 */
module UploadingPane {
  import opened Js

  type ImporterStatus = map<string, JsValue>

  /** The entries of `appStates` the pane reads. */
  datatype StateNames = StateNames(readyForUpload: string, uploadFailure: string, uploading: string, uploadSuccess: string)
  {
    predicate Distinct() {
      && readyForUpload != "" && uploadFailure != "" && uploading != "" && uploadSuccess != ""
      && readyForUpload != uploadFailure && readyForUpload != uploading && readyForUpload != uploadSuccess
      && uploadFailure != uploading && uploadFailure != uploadSuccess
      && uploading != uploadSuccess
    }
  }

  type AppStates = names: StateNames | names.Distinct() witness StateNames("ready", "failure", "uploading", "success")

  function ImporterState(status: ImporterStatus): JsValue {
    Get(status, "importerState")
  }

  /** `! importerState || includes( [ READY_FOR_UPLOAD, UPLOAD_FAILURE ], importerState )`. */
  predicate AcceptsFileAt(state: JsValue, states: AppStates) {
    !Truthy(state) || state == Str(states.readyForUpload) || state == Str(states.uploadFailure)
  }

  /** `isReadyForImport`: never while uploading; otherwise for a falsy state, ready-for-upload or upload-failure. */
  function IsReadyForImport(isUploading: bool, importerState: JsValue, states: AppStates): (ready: bool)
    ensures isUploading ==> !ready
    ensures !isUploading ==> (ready <==> AcceptsFileAt(importerState, states))
    ensures !isUploading && (importerState == Undefined || importerState == Null || importerState == Str("")) ==> ready
    ensures !isUploading && importerState == Str(states.uploading) ==> !ready
    ensures !isUploading && importerState == Str(states.uploadSuccess) ==> !ready
  {
    if isUploading then false
    else !Truthy(importerState) || importerState in [Str(states.readyForUpload), Str(states.uploadFailure)]
  }

  /** An upload in progress overrides the importer's own state. */
  function Stage(isUploading: bool, importerState: JsValue, states: AppStates): (stage: JsValue)
    ensures isUploading ==> stage == Str(states.uploading)
    ensures !isUploading ==> stage == importerState
  {
    if isUploading then Str(states.uploading) else importerState
  }

  datatype Prompt = UploadingFile(filename: JsValue) | ProcessingFile

  datatype Message =
    | DragPrompt                                               // "Drag a file here, or click to upload a file"
    | Progress(complete: bool, prompt: Prompt, value: real)   // prompt plus progress bar out of 100
    | SuccessContinue(importerId: JsValue)                     // "Success! File uploaded." and a Continue button
    | NoMessage                                                // the switch falls through

  /** The `UPLOADING` case: complete above 95 percent, and the file named below 99 percent. */
  function ProgressMessage(uploadPercent: Option<real>, status: ImporterStatus): (m: Message)
    ensures m.Progress? && m.value == uploadPercent.GetOr(0.0)
    ensures m.complete <==> uploadPercent.GetOr(0.0) > 95.0
    ensures m.prompt == UploadingFile(Get(status, "filename")) <==> uploadPercent.GetOr(0.0) < 99.0
    ensures m.prompt == ProcessingFile <==> uploadPercent.GetOr(0.0) >= 99.0
  {
    var percent := uploadPercent.GetOr(0.0);
    Progress(percent > 95.0, if percent < 99.0 then UploadingFile(Get(status, "filename")) else ProcessingFile, percent)
  }

  /**
   * `getMessage`; `uploadPercent` defaults to 0.  The `switch` compares
   * strictly, so of the falsy states only `undefined` reaches the drag prompt.
   */
  function GetMessage(isUploading: bool, uploadPercent: Option<real>, status: ImporterStatus, states: AppStates)
    : (m: Message)
    ensures m.DragPrompt? <==> (!isUploading &&
      (ImporterState(status) == Undefined || ImporterState(status) == Str(states.readyForUpload)
       || ImporterState(status) == Str(states.uploadFailure)))
    ensures m.Progress? <==> isUploading || ImporterState(status) == Str(states.uploading)
    ensures m.SuccessContinue? <==> !isUploading && ImporterState(status) == Str(states.uploadSuccess)
    ensures m.SuccessContinue? ==> m.importerId == Get(status, "importerId")
    ensures m.NoMessage? <==> (!isUploading && ImporterState(status) != Undefined &&
      ImporterState(status) !in [Str(states.readyForUpload), Str(states.uploadFailure),
                                 Str(states.uploading), Str(states.uploadSuccess)])
    ensures m.Progress? ==> m == ProgressMessage(uploadPercent, status)
  {
    var stage := Stage(isUploading, ImporterState(status), states);
    if stage == Str(states.readyForUpload) || stage == Str(states.uploadFailure) || stage == Undefined then
      DragPrompt
    else if stage == Str(states.uploading) then
      ProgressMessage(uploadPercent, status)
    else if stage == Str(states.uploadSuccess) then
      SuccessContinue(Get(status, "importerId"))
    else
      NoMessage
  }

  /** For an undefined or non-empty state, the pane invites a file exactly when it is ready to take one. */
  lemma ReadyIffDragPrompt(isUploading: bool, uploadPercent: Option<real>, status: ImporterStatus, states: AppStates)
    requires ImporterState(status) == Undefined || Truthy(ImporterState(status))
    ensures IsReadyForImport(isUploading, ImporterState(status), states)
        <==> GetMessage(isUploading, uploadPercent, status, states) == DragPrompt
  {
  }

  /**
   * As written, a falsy state other than `undefined` (`''`, `null`) makes the
   * pane ready for a file, yet `getMessage` shows no message at all.
   */
  lemma FalsyStateReadyWithoutPrompt(uploadPercent: Option<real>, status: ImporterStatus, states: AppStates)
    requires !Truthy(ImporterState(status)) && ImporterState(status) != Undefined
    ensures IsReadyForImport(false, ImporterState(status), states)
    ensures GetMessage(false, uploadPercent, status, states) == NoMessage
  {
  }

  /** The pane as evidently intended: every state that makes it ready shows the drag prompt. */
  function IntendedMessage(isUploading: bool, uploadPercent: Option<real>, status: ImporterStatus, states: AppStates)
    : (m: Message)
    ensures isUploading || Truthy(ImporterState(status)) || ImporterState(status) == Undefined ==>
      m == GetMessage(isUploading, uploadPercent, status, states)
    ensures !isUploading && !Truthy(ImporterState(status)) ==> m == DragPrompt
  {
    var stage := Stage(isUploading, ImporterState(status), states);
    if !Truthy(stage) || stage == Str(states.readyForUpload) || stage == Str(states.uploadFailure) then
      DragPrompt
    else if stage == Str(states.uploading) then
      ProgressMessage(uploadPercent, status)
    else if stage == Str(states.uploadSuccess) then
      SuccessContinue(Get(status, "importerId"))
    else
      NoMessage
  }

  /** With the intended message the pane invites a file exactly when it is ready, for every state. */
  lemma IntendedReadyIffDragPrompt(isUploading: bool, uploadPercent: Option<real>, status: ImporterStatus,
                                   states: AppStates)
    ensures IsReadyForImport(isUploading, ImporterState(status), states)
        <==> IntendedMessage(isUploading, uploadPercent, status, states) == DragPrompt
  {
    if !isUploading && !Truthy(ImporterState(status)) {
      assert IntendedMessage(isUploading, uploadPercent, status, states) == DragPrompt;
    } else if !isUploading {
      ReadyIffDragPrompt(isUploading, uploadPercent, status, states);
    }
  }

  /** What the rendered pane offers: a click opening the file selector, the file input, and what a drop does. */
  datatype PaneControls = PaneControls(clickOpensSelector: bool, fileInput: bool, dropStartsUpload: bool)

  function Controls(isUploading: bool, status: ImporterStatus, states: AppStates): (c: PaneControls)
    ensures c.clickOpensSelector == c.fileInput == c.dropStartsUpload
    ensures c.fileInput <==> IsReadyForImport(isUploading, ImporterState(status), states)
  {
    var ready := IsReadyForImport(isUploading, ImporterState(status), states);
    PaneControls(ready, ready, ready)
  }

  /** `{ type: importerOption, ...importerStatus }`: the status object's own `type`, if it has one, wins. */
  function ImporterData(importerOption: JsValue, status: ImporterStatus): (data: map<string, JsValue>)
    ensures data.Keys == status.Keys + {"type"}
    ensures data["type"] == if "type" in status then status["type"] else importerOption
    ensures forall k :: k in status ==> data[k] == status[k]
  {
    map["type" := importerOption] + status
  }

  datatype UploadRequest<File> = UploadRequest(importerData: map<string, JsValue>, file: Option<File>)

  /** A drop on the pane: the first dropped file is uploaded when the pane is ready, and nothing happens otherwise. */
  function OnFilesDrop<File>(isUploading: bool, status: ImporterStatus, states: AppStates, files: seq<File>,
                             importerOption: JsValue)
    : (request: Option<UploadRequest<File>>)
    ensures request.Some? <==> IsReadyForImport(isUploading, ImporterState(status), states)
    ensures request.Some? ==> request.value.importerData == ImporterData(importerOption, status)
    ensures request.Some? ==> (request.value.file.Some? <==> |files| > 0)
    ensures request.Some? && |files| > 0 ==> request.value.file == Some(files[0])
  {
    if IsReadyForImport(isUploading, ImporterState(status), states) then
      Some(UploadRequest(ImporterData(importerOption, status), if |files| > 0 then Some(files[0]) else None))
    else
      None
  }
}
