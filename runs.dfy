/**
 * The page together with the asynchronous work it has started: FileReaders,
 * capture timers and prediction calls still outstanding. An event is a user
 * action or the completion of one outstanding operation, in any order the
 * browser delivers them. The start button can only be clicked while it is
 * enabled; nothing else is constrained.
 */
module Runs {
  import opened Wrappers
  import opened Domain
  import opened Workflow

  datatype World = World(page: Session, pendingReads: nat, pendingTimers: nat, pendingPredictions: nat)

  datatype Event =
    | PlantChosen(plant: Option<Plant>)
    | FileChosen(chosen: Option<File>)
    | ReadDone(read: ReadOutcome)
    | PhotoClicked
    | PhotoTimerDone
    | EditClicked
    | StartClicked
    | PredictionDone(prediction: PredictOutcome)
    | DialogOpenChanged(open: bool)
    | FullResultClicked

  /** The page just mounted, with nothing outstanding. */
  const Start := World(Initial, 0, 0, 0)

  /**
   * The world after `e`, or None when `e` cannot happen: a completion with
   * nothing of its kind outstanding, or a click on the disabled start button.
   */
  function Next(w: World, e: Event, encode: string -> string): Option<World> {
    match e
    case PlantChosen(plant) =>
      Some(w.(page := w.page.(selectedPlant := plant)))
    case FileChosen(chosen) =>
      var r := FileUpload(w.page, chosen);
      Some(w.(page := r.session, pendingReads := w.pendingReads + if r.effect.ReadAsDataUrl? then 1 else 0))
    case ReadDone(read) =>
      if w.pendingReads == 0 then None
      else Some(w.(page := ReadCompleted(w.page, read).session, pendingReads := w.pendingReads - 1))
    case PhotoClicked =>
      Some(w.(page := TakePhoto(w.page).session, pendingTimers := w.pendingTimers + 1))
    case PhotoTimerDone =>
      if w.pendingTimers == 0 then None
      else Some(w.(page := PhotoTimer(w.page), pendingTimers := w.pendingTimers - 1))
    case EditClicked =>
      Some(w.(page := EditImage(w.page)))
    case StartClicked =>
      if ButtonDisabled(w.page) then None
      else
        var r := StartDiagnosis(w.page);
        Some(w.(page := r.session, pendingPredictions := w.pendingPredictions + if r.effect.Predict? then 1 else 0))
    case PredictionDone(prediction) =>
      if w.pendingPredictions == 0 then None
      else Some(w.(page := PredictionSettled(w.page, prediction), pendingPredictions := w.pendingPredictions - 1))
    case DialogOpenChanged(open) =>
      Some(w.(page := w.page.(isResultDialogOpen := open)))
    case FullResultClicked =>
      Some(w.(page := NavigateToFullResult(w.page, encode).session))
  }

  /** The world after the events in order, or None if one of them cannot happen. */
  function Run(w: World, events: seq<Event>, encode: string -> string): Option<World>
    decreases |events|
  {
    if events == [] then Some(w)
    else
      match Next(w, events[0], encode)
      case None => None
      case Some(w') => Run(w', events[1..], encode)
  }

  /**
   * What holds in every world the page reaches: no busy flag outlives the
   * operations that set it, at most one prediction is outstanding, a result
   * and an error are never held together (and neither while predicting), and
   * a recorded error is never blank.
   */
  predicate Inv(w: World) {
    var s := w.page;
    (w.pendingReads + w.pendingTimers == 0 ==> !s.isUploading) &&
    w.pendingPredictions == (if s.isPredicting then 1 else 0) &&
    (s.isPredicting ==> s.predictionResult.None? && s.predictionError.None?) &&
    !(s.predictionResult.Some? && s.predictionError.Some?) &&
    (s.predictionError.Some? ==> s.predictionError.value != "")
  }

  lemma InitialSatisfiesInv()
    ensures Inv(Start)
  {
  }

  lemma NextPreservesInv(w: World, e: Event, encode: string -> string)
    requires Inv(w)
    ensures Next(w, e, encode).Some? ==> Inv(Next(w, e, encode).value)
  {
  }

  lemma {:induction false} RunPreservesInv(w: World, events: seq<Event>, encode: string -> string)
    requires Inv(w)
    ensures Run(w, events, encode).Some? ==> Inv(Run(w, events, encode).value)
    decreases |events|
  {
    if events != [] {
      NextPreservesInv(w, events[0], encode);
      var next := Next(w, events[0], encode);
      if next.Some? {
        RunPreservesInv(next.value, events[1..], encode);
      }
    }
  }

  /**
   * Every world reached from a fresh page satisfies the invariant; in
   * particular at most one prediction request is ever outstanding.
   */
  lemma {:induction false} ReachableSatisfiesInv(events: seq<Event>, encode: string -> string)
    ensures Run(Start, events, encode).Some? ==> Inv(Run(Start, events, encode).value)
    ensures Run(Start, events, encode).Some? ==> Run(Start, events, encode).value.pendingPredictions <= 1
  {
    InitialSatisfiesInv();
    RunPreservesInv(Start, events, encode);
  }

  /**
   * Once every started read, timer and prediction has completed, the page is
   * actionable again: neither busy flag is set, the label is the start label,
   * and the button is enabled exactly when a plant and an image are present.
   */
  lemma QuiescentPageIsActionable(w: World)
    requires Inv(w) && w.pendingReads == 0 && w.pendingTimers == 0 && w.pendingPredictions == 0
    ensures !w.page.isUploading && !w.page.isPredicting && ButtonLabel(w.page) == StartLabel
    ensures ButtonDisabled(w.page) <==> !(w.page.selectedPlant.Some? && Truthy(w.page.uploadedImage))
  {
  }

  /**
   * In every reachable world a recorded error is shown inline whenever the
   * dialog is closed (it is never blank, so never hidden), and no result is
   * held beside a visible alert.
   */
  lemma {:induction false} RecordedErrorIsVisible(events: seq<Event>, encode: string -> string)
    requires Run(Start, events, encode).Some?
    ensures var s := Run(Start, events, encode).value.page;
            (s.predictionError.Some? && !s.isResultDialogOpen ==> ShowErrorAlert(s)) &&
            (ShowErrorAlert(s) ==> s.predictionResult.None?)
  {
    ReachableSatisfiesInv(events, encode);
  }

  /** Running two event sequences one after the other is running their concatenation. */
  lemma {:induction false} RunConcat(w: World, a: seq<Event>, b: seq<Event>, encode: string -> string)
    ensures Run(w, a + b, encode) ==
            match Run(w, a, encode)
            case None => None
            case Some(w') => Run(w', b, encode)
    decreases |a|
  {
    if a == [] {
      assert a + b == b;
    } else {
      assert (a + b)[0] == a[0];
      assert (a + b)[1..] == a[1..] + b;
      var next := Next(w, a[0], encode);
      if next.Some? {
        RunConcat(next.value, a[1..], b, encode);
      }
    }
  }

  /** Choose a plant, choose a file, let it read, press start. */
  function SubmitEvents(plant: Plant, file: File, url: string): seq<Event> {
    [PlantChosen(Some(plant)), FileChosen(Some(file)), ReadDone(Loaded(url)), StartClicked]
  }

  /**
   * From a fresh page, a plant and an accepted file that reads successfully
   * lead to exactly one outstanding prediction, with nothing else pending and
   * no result or error held.
   */
  lemma SubmitFromFreshPage(plant: Plant, file: File, url: string, encode: string -> string)
    requires file.size <= MaxUploadBytes && url != ""
    ensures var w := Run(Start, SubmitEvents(plant, file, url), encode);
            w.Some? && w.value.pendingPredictions == 1 &&
            w.value.pendingReads == 0 && w.value.pendingTimers == 0 &&
            w.value.page == Initial.(selectedPlant := Some(plant), inputFile := Some(file),
                                     uploadedFileName := file.name, uploadedImage := Some(url),
                                     isPredicting := true)
  {
    var events := SubmitEvents(plant, file, url);
    var p1 := Initial.(selectedPlant := Some(plant));
    var p2 := p1.(inputFile := Some(file), isUploading := true, uploadedFileName := file.name);
    var p3 := p2.(uploadedImage := Some(url), isUploading := false);
    var p4 := p3.(isPredicting := true);
    assert Next(Start, events[0], encode) == Some(World(p1, 0, 0, 0));
    assert Next(World(p1, 0, 0, 0), events[1], encode) == Some(World(p2, 1, 0, 0));
    assert Next(World(p2, 1, 0, 0), events[2], encode) == Some(World(p3, 0, 0, 0));
    assert Next(World(p3, 0, 0, 0), events[3], encode) == Some(World(p4, 0, 0, 1));
    assert Run(World(p3, 0, 0, 0), events[3..], encode) == Some(World(p4, 0, 0, 1));
    assert Run(World(p2, 1, 0, 0), events[2..], encode) == Some(World(p4, 0, 0, 1));
    assert Run(World(p1, 0, 0, 0), events[1..], encode) == Some(World(p4, 0, 0, 1));
  }

  /**
   * Select "cabai", upload a 2 MiB image, start: a successful answer opens
   * the dialog on the result, with no error recorded and nothing pending.
   */
  lemma UploadThenDiagnoseSucceeds(name: string, url: string, d: PredictionData, encode: string -> string)
    requires url != ""
    ensures var events := SubmitEvents(Cabai, File(name, 2 * 1024 * 1024), url) +
                          [PredictionDone(Responded(ApiResponse(200, Some(d), "")))];
            var w := Run(Start, events, encode);
            w.Some? && w.value.page.isResultDialogOpen && w.value.page.predictionResult == Some(d) &&
            w.value.page.predictionError.None? && !w.value.page.isPredicting && w.value.pendingPredictions == 0 &&
            w.value.pendingReads == 0 && w.value.pendingTimers == 0
  {
    var submit := SubmitEvents(Cabai, File(name, 2 * 1024 * 1024), url);
    var last := [PredictionDone(Responded(ApiResponse(200, Some(d), "")))];
    SubmitFromFreshPage(Cabai, File(name, 2 * 1024 * 1024), url, encode);
    RunConcat(Start, submit, last, encode);
  }

  /**
   * Select "selada", upload an image, start: a call that throws leaves the
   * dialog closed and no result, and the inline alert shows a non-empty message.
   */
  lemma UploadThenDiagnoseThrows(file: File, url: string, error: ApiError, encode: string -> string)
    requires file.size <= MaxUploadBytes && url != ""
    ensures var events := SubmitEvents(Selada, file, url) + [PredictionDone(Threw(error))];
            var w := Run(Start, events, encode);
            w.Some? && !w.value.page.isResultDialogOpen && w.value.page.predictionResult.None? &&
            ShowErrorAlert(w.value.page) && w.value.page.predictionError == Some(FailureMessage(Threw(error))) &&
            !w.value.page.isPredicting && w.value.pendingPredictions == 0 &&
            w.value.pendingReads == 0 && w.value.pendingTimers == 0
  {
    SubmitFromFreshPage(Selada, file, url, encode);
    RunConcat(Start, SubmitEvents(Selada, file, url), [PredictionDone(Threw(error))], encode);
  }

  /**
   * Choosing a plant and taking a photo: the button becomes enabled, but
   * clicking it only alerts and issues no request.
   */
  lemma CameraRunIssuesNoRequest(encode: string -> string)
    ensures var w := Run(Start, [PlantChosen(Some(Tomat)), PhotoClicked, PhotoTimerDone], encode);
            w.Some? && !ButtonDisabled(w.value.page) &&
            Next(w.value, StartClicked, encode) == Some(w.value)
  {
  }
}
