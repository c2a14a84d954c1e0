/**
 * The diagnosis page as a value: its state record, one function per event
 * handler or asynchronous callback, and the conditions the page renders from.
 * Every asynchronous step of the page is split in two: the handler that starts
 * it returns an `Effect`, and a separate function applies its completion.
 */
module Workflow {
  import opened Wrappers
  import opened Domain

  /** The page's `useState` fields, plus the file its file input holds. */
  datatype Session = Session(
    selectedPlant: Option<Plant>,
    uploadedImage: Option<string>,
    isUploading: bool,
    uploadedFileName: string,
    inputFile: Option<File>,
    isResultDialogOpen: bool,
    predictionResult: Option<PredictionData>,
    isPredicting: bool,
    predictionError: Option<string>)

  /** The state the page mounts with. */
  const Initial := Session(None, None, false, "", None, false, None, false, None)

  /** A handler's new state and the effect it asks for. */
  datatype Outcome = Outcome(session: Session, effect: Effect)

  /** JavaScript truthiness of a `string | null` value. */
  predicate Truthy(v: Option<string>) {
    v.Some? && v.value != ""
  }

  /** The image-acquisition fields agree. */
  predicate SameUpload(a: Session, b: Session) {
    a.uploadedImage == b.uploadedImage && a.isUploading == b.isUploading &&
    a.uploadedFileName == b.uploadedFileName && a.inputFile == b.inputFile
  }

  /** The prediction and dialog fields agree. */
  predicate SameDiagnosis(a: Session, b: Session) {
    a.isResultDialogOpen == b.isResultDialogOpen && a.predictionResult == b.predictionResult &&
    a.isPredicting == b.isPredicting && a.predictionError == b.predictionError
  }

  // ---------------------------------------------------------------------------
  // Image acquisition

  /**
   * A change on the file input. The input now holds `chosen`, whatever the
   * handler then decides; a file over 5 MiB is refused with an alert, any
   * other file marks the page as uploading and starts a FileReader on it.
   */
  function FileUpload(s: Session, chosen: Option<File>): (r: Outcome)
    ensures r.session.inputFile == chosen
    ensures r.session.selectedPlant == s.selectedPlant && SameDiagnosis(s, r.session)
    ensures r.session.uploadedImage == s.uploadedImage
    ensures r.effect.ReadAsDataUrl? <==> chosen.Some? && chosen.value.size <= MaxUploadBytes
    ensures r.effect.ReadAsDataUrl? ==>
              r.effect.file == chosen.value && r.session.isUploading &&
              r.session.uploadedFileName == chosen.value.name
    ensures chosen.Some? && chosen.value.size > MaxUploadBytes ==>
              r.effect == Alert(FileTooLargeMessage) && r.session == s.(inputFile := chosen)
    ensures chosen.None? ==> r.effect == NoEffect && r.session == s.(inputFile := None)
  {
    var s' := s.(inputFile := chosen);
    match chosen
    case None => Outcome(s', NoEffect)
    case Some(file) =>
      if file.size > MaxUploadBytes then
        Outcome(s', Alert(FileTooLargeMessage))
      else
        Outcome(s'.(isUploading := true, uploadedFileName := file.name), ReadAsDataUrl(file))
  }

  /** The reader's `onloadend` callback: stores the reader's result, ends the upload. */
  function ReaderLoadEnd(s: Session, result: Option<string>): Session {
    s.(uploadedImage := result, isUploading := false)
  }

  /** The reader's `onerror` callback: ends the upload and alerts; the image stays. */
  function ReaderError(s: Session): Outcome {
    Outcome(s.(isUploading := false), Alert(ReadFailedMessage))
  }

  /**
   * A FileReader finishing. A successful read fires `loadend` with the data
   * URL; a failed read fires `error` and then `loadend` with a null result.
   */
  function ReadCompleted(s: Session, outcome: ReadOutcome): (r: Outcome)
    ensures !r.session.isUploading
    ensures outcome.Loaded? ==> r.session.uploadedImage == Some(outcome.dataUrl) && r.effect == NoEffect
    ensures outcome.ReadFailed? ==> r.session.uploadedImage.None? && r.effect == Alert(ReadFailedMessage)
    ensures r.session.uploadedFileName == s.uploadedFileName && r.session.inputFile == s.inputFile
    ensures r.session.selectedPlant == s.selectedPlant && SameDiagnosis(s, r.session)
  {
    match outcome
    case Loaded(url) => Outcome(ReaderLoadEnd(s, Some(url)), NoEffect)
    case ReadFailed =>
      var failed := ReaderError(s);
      Outcome(ReaderLoadEnd(failed.session, None), failed.effect)
  }

  /** "Take photo": marks the page as uploading and starts the capture timer. */
  function TakePhoto(s: Session): Outcome {
    Outcome(s.(isUploading := true, uploadedFileName := CameraFileName), StartTimer(PhotoDelayMs))
  }

  /** The capture timer firing: the placeholder becomes the image, the upload ends. */
  function PhotoTimer(s: Session): Session {
    s.(uploadedImage := Some(PlaceholderImage), isUploading := false)
  }

  /** "Edit image": empties the file input and clears the image fields. */
  function EditImage(s: Session): Session {
    s.(inputFile := None, uploadedImage := None, uploadedFileName := "", isUploading := false)
  }

  // ---------------------------------------------------------------------------
  // Diagnosis request

  /**
   * "Start diagnosis" up to its `await`. The guard looks only at the selected
   * plant and at the file input, not at the image, nor at either busy flag.
   */
  function StartDiagnosis(s: Session): (r: Outcome)
    ensures r.effect.Predict? <==> s.selectedPlant.Some? && s.inputFile.Some?
    ensures r.effect.Predict? ==>
              r.effect.plant == s.selectedPlant.value && r.effect.file == s.inputFile.value &&
              r.session.isPredicting && r.session.predictionError.None? && r.session.predictionResult.None?
    ensures !r.effect.Predict? ==> r.session == s && r.effect == Alert(NotReadyMessage)
    ensures r.session.selectedPlant == s.selectedPlant && SameUpload(s, r.session)
    ensures r.session.isResultDialogOpen == s.isResultDialogOpen
  {
    if s.selectedPlant.None? || s.inputFile.None? then
      Outcome(s, Alert(NotReadyMessage))
    else
      Outcome(s.(isPredicting := true, predictionError := None, predictionResult := None),
              Predict(s.selectedPlant.value, s.inputFile.value))
  }

  /** The prediction call answered with status 200 and a data payload. */
  predicate Succeeded(outcome: PredictOutcome) {
    outcome.Responded? && outcome.response.status == 200 && outcome.response.data.Some?
  }

  /** The message carried by a failed response or by a thrown error. */
  function MessageOf(outcome: PredictOutcome): string {
    match outcome
    case Responded(response) => response.message
    case Threw(error) => error.message
  }

  /** The text shown for a failed prediction: the carried message, or a fallback. */
  function FailureMessage(outcome: PredictOutcome): (m: string)
    ensures m != ""
    ensures MessageOf(outcome) != "" ==> m == MessageOf(outcome)
    ensures MessageOf(outcome) == "" && outcome.Responded? ==> m == ResponseFallbackMessage
    ensures MessageOf(outcome) == "" && outcome.Threw? ==> m == ThrownFallbackMessage
  {
    var fallback := if outcome.Responded? then ResponseFallbackMessage else ThrownFallbackMessage;
    if MessageOf(outcome) != "" then MessageOf(outcome) else fallback
  }

  /**
   * "Start diagnosis" after its `await`: the `try` body, the `catch` and the
   * `finally`. Success stores the result and opens the dialog; every failure
   * records a message; every path clears the busy flag.
   */
  function PredictionSettled(s: Session, outcome: PredictOutcome): (r: Session)
    ensures !r.isPredicting
    ensures r.selectedPlant == s.selectedPlant && SameUpload(s, r)
    ensures Succeeded(outcome) ==>
              r.predictionResult == outcome.response.data && r.isResultDialogOpen &&
              r.predictionError == s.predictionError
    ensures !Succeeded(outcome) ==>
              r.predictionError == Some(FailureMessage(outcome)) &&
              r.predictionResult == s.predictionResult && r.isResultDialogOpen == s.isResultDialogOpen
  {
    var settled :=
      if Succeeded(outcome) then
        s.(predictionResult := outcome.response.data, isResultDialogOpen := true)
      else
        s.(predictionError := Some(FailureMessage(outcome)));
    settled.(isPredicting := false)
  }

  // ---------------------------------------------------------------------------
  // Result navigation

  /** The query parameters of the full-result page, in the order they are appended. */
  function FullResultQuery(d: PredictionData, image: string, encode: string -> string): seq<(string, string)> {
    [("diseaseId", d.diseaseId), ("plantType", d.tanaman), ("confidence", d.confidence), ("image", encode(image))]
  }

  /** The keys of a query, in order. */
  function QueryKeys(q: seq<(string, string)>): (keys: seq<string>)
    ensures |keys| == |q|
    ensures forall i :: 0 <= i < |q| ==> keys[i] == q[i].0
  {
    if q == [] then [] else [q[0].0] + QueryKeys(q[1..])
  }

  /** The first value stored under `key`, as `URLSearchParams.get` reads it. */
  function QueryGet(q: seq<(string, string)>, key: string): (v: Option<string>)
    ensures v.Some? <==> key in QueryKeys(q)
    ensures v.Some? ==> exists i :: 0 <= i < |q| && q[i] == (key, v.value) &&
                                    forall j :: 0 <= j < i ==> q[j].0 != key
  {
    if q == [] then None
    else if q[0].0 == key then Some(q[0].1)
    else QueryGet(q[1..], key)
  }

  /**
   * "View full result": with a result and an image, navigates to the
   * full-result page, passing the image through `encode`, and closes the
   * dialog while keeping the result; otherwise does nothing.
   */
  function NavigateToFullResult(s: Session, encode: string -> string): (r: Outcome)
    ensures r.effect.Navigate? <==> s.predictionResult.Some? && Truthy(s.uploadedImage)
    ensures !r.effect.Navigate? ==> r.session == s && r.effect == NoEffect
    ensures r.effect.Navigate? ==>
              r.effect.target.path == FullResultPath &&
              r.effect.target.query == FullResultQuery(s.predictionResult.value, s.uploadedImage.value, encode) &&
              !r.session.isResultDialogOpen && r.session.predictionResult == s.predictionResult
    ensures r.session == s.(isResultDialogOpen := r.session.isResultDialogOpen)
  {
    if s.predictionResult.Some? && Truthy(s.uploadedImage) then
      var target := NavTarget(FullResultPath, FullResultQuery(s.predictionResult.value, s.uploadedImage.value, encode));
      Outcome(s.(isResultDialogOpen := false), Navigate(target))
    else
      Outcome(s, NoEffect)
  }

  // ---------------------------------------------------------------------------
  // What the page renders from its state

  /** The page's `canStartDiagnosis`. */
  predicate CanStartDiagnosis(s: Session) {
    s.selectedPlant.Some? && Truthy(s.uploadedImage) && !s.isUploading && !s.isPredicting
  }

  /** The start button's `disabled` attribute; its extra `isPredicting` test is redundant. */
  function ButtonDisabled(s: Session): (r: bool)
    ensures r <==> !CanStartDiagnosis(s)
    ensures s.isPredicting ==> r
  {
    !CanStartDiagnosis(s) || s.isPredicting
  }

  /** The start button's label. */
  function ButtonLabel(s: Session): string {
    if s.isPredicting then DiagnosingLabel
    else if s.isUploading then WaitingUploadLabel
    else StartLabel
  }

  /** The inline error alert is shown. */
  predicate ShowErrorAlert(s: Session) {
    Truthy(s.predictionError) && !s.isResultDialogOpen
  }

  /** The "choose a plant first" hint is shown. */
  predicate ShowPlantHint(s: Session) {
    s.selectedPlant.None? && !s.isPredicting
  }

  /** The "upload a photo" hint is shown. */
  predicate ShowUploadHint(s: Session) {
    s.selectedPlant.Some? && !Truthy(s.uploadedImage) && !s.isUploading && !s.isPredicting
  }
}
