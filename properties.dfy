/**
 * Properties of the page's handlers and render conditions, each stated for
 * every state the page can be in.
 */
module PageProperties {
  import opened Wrappers
  import opened Domain
  import opened Workflow

  /** The start button is enabled exactly when `canStartDiagnosis` holds, and never during a prediction. */
  lemma ButtonEnabledExactlyWhenReady(s: Session)
    ensures !ButtonDisabled(s) <==>
              s.selectedPlant.Some? && Truthy(s.uploadedImage) && !s.isUploading && !s.isPredicting
    ensures s.isPredicting ==> ButtonDisabled(s) && ButtonLabel(s) == DiagnosingLabel
  {
  }

  /**
   * A disabled button always comes with a visible reason: a busy label or one
   * of the two hints; an enabled one comes with neither. The hints never show together.
   */
  lemma DisabledButtonIsExplained(s: Session)
    ensures ButtonDisabled(s) <==> ButtonLabel(s) != StartLabel || ShowPlantHint(s) || ShowUploadHint(s)
    ensures !(ShowPlantHint(s) && ShowUploadHint(s))
  {
  }

  /** A file of exactly 5 MiB is accepted; one byte more is refused and changes nothing but the input. */
  lemma UploadLimitIsInclusive(s: Session, name: string)
    ensures var r := FileUpload(s, Some(File(name, MaxUploadBytes)));
            r.effect == ReadAsDataUrl(File(name, MaxUploadBytes)) &&
            r.session.isUploading && r.session.uploadedFileName == name
    ensures var big := File(name, MaxUploadBytes + 1);
            var r := FileUpload(s, Some(big));
            r.effect == Alert(FileTooLargeMessage) && r.session == s.(inputFile := Some(big))
  {
  }

  /** Editing the image clears every image field and the input, and nothing about the diagnosis. */
  lemma EditImageClearsOnlyTheUpload(s: Session)
    ensures var t := EditImage(s);
            t.uploadedImage.None? && t.uploadedFileName == "" && !t.isUploading && t.inputFile.None? &&
            t.selectedPlant == s.selectedPlant && SameDiagnosis(s, t) &&
            !CanStartDiagnosis(t) && StartDiagnosis(t).effect == Alert(NotReadyMessage)
  {
  }

  /**
   * A request followed by its completion: the busy flag ends cleared; success
   * opens the dialog with no error recorded, so none shows once it closes; a failure keeps the dialog as it
   * was and shows a non-empty error inline unless the dialog is open.
   */
  lemma StartThenSettle(s: Session, outcome: PredictOutcome)
    requires StartDiagnosis(s).effect.Predict?
    ensures var t := PredictionSettled(StartDiagnosis(s).session, outcome);
            !t.isPredicting && SameUpload(s, t) && t.selectedPlant == s.selectedPlant &&
            (Succeeded(outcome) ==>
               t.isResultDialogOpen && t.predictionResult == outcome.response.data && t.predictionError.None?) &&
            (!Succeeded(outcome) ==>
               t.isResultDialogOpen == s.isResultDialogOpen && t.predictionResult.None? &&
               Truthy(t.predictionError) && (ShowErrorAlert(t) <==> !s.isResultDialogOpen))
  {
  }

  /** The handler's decision depends on the plant and the input's file only, never on the busy flags. */
  lemma StartGuardIgnoresBusyFlags(s: Session, uploading: bool, predicting: bool)
    ensures var t := s.(isUploading := uploading, isPredicting := predicting);
            StartDiagnosis(t).effect == StartDiagnosis(s).effect
  {
  }

  /**
   * The camera path enables the button yet the handler refuses: the photo
   * sets the image but never the file input, which is what the handler checks.
   */
  lemma CameraPhotoCannotBeDiagnosed(s: Session)
    requires s.selectedPlant.Some? && s.inputFile.None? && !s.isPredicting
    ensures var t := PhotoTimer(TakePhoto(s).session);
            CanStartDiagnosis(t) && !ButtonDisabled(t) &&
            StartDiagnosis(t) == Outcome(t, Alert(NotReadyMessage))
  {
  }

  /**
   * The photo never empties the file input either: when the input still
   * holds an earlier file, the placeholder is shown and a start sends that file.
   */
  lemma CameraPhotoSendsEarlierFile(s: Session, f: File)
    requires s.selectedPlant.Some? && s.inputFile == Some(f) && !s.isPredicting
    ensures var t := PhotoTimer(TakePhoto(s).session);
            t.uploadedImage == Some(PlaceholderImage) && CanStartDiagnosis(t) &&
            StartDiagnosis(t).effect == Predict(s.selectedPlant.value, f)
  {
  }

  /** A read that finishes after "edit image" still installs its image: there is no staleness guard. */
  lemma StaleReadSurvivesEdit(s: Session, f: File, url: string)
    requires f.size <= MaxUploadBytes
    ensures var t := ReadCompleted(EditImage(FileUpload(s, Some(f)).session), Loaded(url)).session;
            t.uploadedImage == Some(url) && t.inputFile.None? && t.uploadedFileName == "" &&
            !t.isUploading && StartDiagnosis(t).effect == Alert(NotReadyMessage)
  {
  }

  /**
   * A refused oversized file stays in the input while the earlier image stays
   * on screen, so a start then sends the refused file.
   */
  lemma RefusedFileIsStillSent(s: Session, big: File)
    requires big.size > MaxUploadBytes && s.selectedPlant.Some?
    ensures var t := FileUpload(s, Some(big)).session;
            t.uploadedImage == s.uploadedImage && (CanStartDiagnosis(s) ==> CanStartDiagnosis(t)) &&
            StartDiagnosis(t).effect == Predict(s.selectedPlant.value, big)
  {
  }

  /**
   * The full-result query has the keys diseaseId, plantType, confidence and
   * image in that order, each reads back its field, and a decoder that
   * inverts the encoder recovers the image.
   */
  lemma {:induction false} FullResultQueryReadsBack(d: PredictionData, image: string,
                                                    encode: string -> string, decode: string -> string)
    requires decode(encode(image)) == image
    ensures var q := FullResultQuery(d, image, encode);
            QueryKeys(q) == ["diseaseId", "plantType", "confidence", "image"] &&
            QueryGet(q, "diseaseId") == Some(d.diseaseId) &&
            QueryGet(q, "plantType") == Some(d.tanaman) &&
            QueryGet(q, "confidence") == Some(d.confidence) &&
            QueryGet(q, "image") == Some(encode(image)) &&
            decode(QueryGet(q, "image").value) == image
  {
  }
}
