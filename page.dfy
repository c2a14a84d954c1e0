/**
 * The diagnosis page as the object its handlers update: one field per
 * `useState` hook plus the file held by the file input. Each handler and each
 * asynchronous callback is a method that updates the fields one setter at a
 * time and returns the effect it asks the browser for; each is proved to
 * produce exactly the state the matching function of `Workflow` describes.
 */
module Page {
  import opened Wrappers
  import opened Domain
  import Workflow

  class DiagnosticsPage {
    var selectedPlant: Option<Plant>
    var uploadedImage: Option<string>
    var isUploading: bool
    var uploadedFileName: string
    var inputFile: Option<File>
    var isResultDialogOpen: bool
    var predictionResult: Option<PredictionData>
    var isPredicting: bool
    var predictionError: Option<string>

    /** The page's state as a value. */
    function Snapshot(): Workflow.Session
      reads this
    {
      Workflow.Session(selectedPlant, uploadedImage, isUploading, uploadedFileName, inputFile,
                       isResultDialogOpen, predictionResult, isPredicting, predictionError)
    }

    constructor ()
      ensures Snapshot() == Workflow.Initial
    {
      selectedPlant, uploadedImage, isUploading, uploadedFileName, inputFile := None, None, false, "", None;
      isResultDialogOpen, predictionResult, isPredicting, predictionError := false, None, false, None;
    }

    /** The plant selector's `onSelectPlant`, which is the plain setter. */
    method SetSelectedPlant(plant: Option<Plant>)
      modifies this
      ensures Snapshot() == old(Snapshot()).(selectedPlant := plant)
    {
      selectedPlant := plant;
    }

    /** The file input's change: the input now holds `chosen`, then `handleFileUpload` runs. */
    method HandleFileUpload(chosen: Option<File>) returns (effect: Effect)
      modifies this
      ensures Snapshot() == Workflow.FileUpload(old(Snapshot()), chosen).session
      ensures effect == Workflow.FileUpload(old(Snapshot()), chosen).effect
    {
      inputFile := chosen;
      effect := NoEffect;
      if chosen.Some? {
        var file := chosen.value;
        if file.size > MaxUploadBytes {
          effect := Alert(FileTooLargeMessage);
          return;
        }
        isUploading := true;
        uploadedFileName := file.name;
        effect := ReadAsDataUrl(file);
      }
    }

    /** The reader's `onloadend`; `result` is None when the read failed. */
    method OnReaderLoadEnd(result: Option<string>)
      modifies this
      ensures Snapshot() == Workflow.ReaderLoadEnd(old(Snapshot()), result)
    {
      uploadedImage := result;
      isUploading := false;
    }

    /** The reader's `onerror`. */
    method OnReaderError() returns (effect: Effect)
      modifies this
      ensures Snapshot() == Workflow.ReaderError(old(Snapshot())).session
      ensures effect == Alert(ReadFailedMessage)
    {
      isUploading := false;
      effect := Alert(ReadFailedMessage);
    }

    /** `handleTakePhoto` up to its timer. */
    method HandleTakePhoto() returns (effect: Effect)
      modifies this
      ensures Snapshot() == Workflow.TakePhoto(old(Snapshot())).session
      ensures effect == StartTimer(PhotoDelayMs)
    {
      isUploading := true;
      uploadedFileName := CameraFileName;
      effect := StartTimer(PhotoDelayMs);
    }

    /** The capture timer's callback. */
    method OnPhotoTimer()
      modifies this
      ensures Snapshot() == Workflow.PhotoTimer(old(Snapshot()))
    {
      uploadedImage := Some(PlaceholderImage);
      isUploading := false;
    }

    /** `handleEditImage`. */
    method HandleEditImage()
      modifies this
      ensures Snapshot() == Workflow.EditImage(old(Snapshot()))
    {
      inputFile := None;
      uploadedImage := None;
      uploadedFileName := "";
      isUploading := false;
    }

    /** `handleStartDiagnosis` up to its `await`; a `Predict` effect is the one request it issues. */
    method HandleStartDiagnosis() returns (effect: Effect)
      modifies this
      ensures Snapshot() == Workflow.StartDiagnosis(old(Snapshot())).session
      ensures effect == Workflow.StartDiagnosis(old(Snapshot())).effect
    {
      if selectedPlant.None? || inputFile.None? {
        effect := Alert(NotReadyMessage);
        return;
      }
      isPredicting := true;
      predictionError := None;
      predictionResult := None;
      effect := Predict(selectedPlant.value, inputFile.value);
    }

    /** `handleStartDiagnosis` after its `await`: the rest of `try`, the `catch` and the `finally`. */
    method OnPredictionSettled(outcome: PredictOutcome)
      modifies this
      ensures Snapshot() == Workflow.PredictionSettled(old(Snapshot()), outcome)
    {
      match outcome {
        case Responded(response) =>
          if response.status == 200 && response.data.Some? {
            predictionResult := response.data;
            isResultDialogOpen := true;
          } else {
            predictionError := Some(if response.message != "" then response.message else ResponseFallbackMessage);
          }
        case Threw(error) =>
          predictionError := Some(if error.message != "" then error.message else ThrownFallbackMessage);
      }
      isPredicting := false;
    }

    /** The result dialog's `onOpenChange`, which is the plain setter. */
    method SetResultDialogOpen(open: bool)
      modifies this
      ensures Snapshot() == old(Snapshot()).(isResultDialogOpen := open)
    {
      isResultDialogOpen := open;
    }

    /** `handleNavigateToFullResult`, with `encode` standing for `encodeURIComponent`. */
    method HandleNavigateToFullResult(encode: string -> string) returns (effect: Effect)
      modifies this
      ensures Snapshot() == Workflow.NavigateToFullResult(old(Snapshot()), encode).session
      ensures effect == Workflow.NavigateToFullResult(old(Snapshot()), encode).effect
    {
      effect := NoEffect;
      if predictionResult.Some? && uploadedImage.Some? && uploadedImage.value != "" {
        var query := [("diseaseId", predictionResult.value.diseaseId),
                      ("plantType", predictionResult.value.tanaman),
                      ("confidence", predictionResult.value.confidence),
                      ("image", encode(uploadedImage.value))];
        effect := Navigate(NavTarget(FullResultPath, query));
        isResultDialogOpen := false;
      }
    }
  }
}
