# Diagnosis page session model

A Dafny model of the plant-disease diagnosis page of the TanaMind front end
(`src/pages/Diagnostics/DiagnosticsPage.tsx`). On that page the user picks a
plant type (cabai, tomat or selada). They then supply a photo, either by
choosing a file or through the simulated camera. Next they start a diagnosis,
and they can open the full result page from the result dialog. Without React,
the page is a record of nine fields: the eight `useState` hooks (the file
name among them) and the file held by the file input. Event handlers and asynchronous
callbacks update that record.

The model has five modules:

- `Domain` (domain.dfy): plant types, files, service responses, the navigation
  target and the page's constants. It also has `Effect`, which stands for
  what a handler asks of the browser: an alert, a FileReader, a timer, the
  prediction call, or a navigation.
- `Workflow` (workflow.dfy): the page state as a value (`Session`). Each
  handler and callback has one function, except the two plain setters
  passed to child components (the plant selection and the dialog's open
  change), which are record updates. The render conditions are here too:
  `canStartDiagnosis`, the button's disabled flag and label, the error alert
  and the two hints. Each asynchronous step is split in two. The handler
  returns the effect that starts the operation, and a separate function
  applies its completion.
- `Page` (page.dfy): the class `DiagnosticsPage`, with one field per piece of
  state. Each handler is a method that updates the fields one setter at a
  time. Each method that has a `Workflow` function is proved to produce the
  state and the effect that function gives. The two plain setters are
  specified as one-field updates of the page's state.
- `PageProperties` (properties.dfy): properties of single handlers and of
  short handler sequences, stated for every state.
- `Runs` (runs.dfy): the page together with the reads, timers and prediction
  calls still outstanding. Events arrive in any order, with two limits. A
  completion needs an outstanding operation of its kind. The start button can
  only be clicked while it is enabled. Invariants are proved by induction
  over every event sequence from a freshly mounted page.

The model follows what the code does:

- The handler's guard checks the file held by the input. The button checks
  `uploadedImage`. A camera capture never touches the input. If the input
  holds no file, the button is enabled after the capture but the handler
  refuses. If the input still holds an earlier file, a start sends that
  file while the placeholder is shown.
- A file refused for its size stays in the input. If an earlier image is
  still shown, starting a diagnosis sends the refused file.
- No completion checks whether it is stale. A read or a capture timer that
  finishes after "edit image" still installs its image.
- The handler does not look at `isPredicting`. Only the button's `disabled`
  attribute keeps a second request from being sent. `Runs` proves that this
  attribute alone keeps at most one prediction outstanding.
- A refused start gives one generic alert, whatever condition was missing.
  The page never rejects a start as "already in progress".
- The reader's result is installed by `onloadend`. Under the W3C File API
  ("the read operation"), `loadend` also fires after `error`, with a null
  result. So a failed read runs `onerror` and then `onloadend` with no result,
  which clears the image. `ReaderError` alone leaves the image as it was, and
  `ReadCompleted` models the pair of callbacks together.

## Model

| member | source | states |
|---|---|---|
| `Workflow.FileUpload` | src/pages/Diagnostics/DiagnosticsPage.tsx:60-80 | The input holds the chosen file, even a refused one. A read starts exactly for a chosen file of at most 5 MiB; it sets `isUploading` and the file name and reads that file. A larger file alerts and changes no page field. No path touches the image, the plant or the diagnosis fields. |
| `Workflow.ReadCompleted` | src/pages/Diagnostics/DiagnosticsPage.tsx:69-77 | Every read completion clears `isUploading`. Success installs the data URL. Failure alerts, and the `loadend` that follows it stores null as the image. The file name, the input, the plant and the diagnosis fields are untouched. |
| `Workflow.StartDiagnosis` | src/pages/Diagnostics/DiagnosticsPage.tsx:104-113 | A request is issued exactly when a plant is selected and the input holds a file. It is `predict(plant, file)` with those two values. It sets `isPredicting` and clears the error and the result. Otherwise the state is unchanged and the generic alert is raised. Upload fields and the dialog flag are untouched. |
| `Workflow.FailureMessage` | src/pages/Diagnostics/DiagnosticsPage.tsx:122-131 | The failure text is never empty. It is the carried message when that is non-empty. Otherwise it is 'Gagal mendapatkan hasil diagnosa.' for a response and 'Gagal melakukan diagnosa. Silakan coba lagi.' for a thrown error. |
| `Workflow.PredictionSettled` | src/pages/Diagnostics/DiagnosticsPage.tsx:114-134 | Every completion clears `isPredicting`. Status 200 with data stores the data and opens the dialog, and leaves the error alone. Every other outcome records the failure message and neither opens the dialog nor changes the result. |
| `Workflow.NavigateToFullResult` | src/pages/Diagnostics/DiagnosticsPage.tsx:137-148 | It navigates exactly when a result and a non-empty image exist, and is a no-op otherwise. The target is `/diagnostics-result` with the query diseaseId, plantType, confidence, image, and the image passed through the encoder. The dialog closes, the result is kept, and nothing else changes. |
| `Workflow.ButtonDisabled` | src/pages/Diagnostics/DiagnosticsPage.tsx:208 | The button is disabled exactly when `canStartDiagnosis` fails, so the extra `isPredicting` test adds nothing. It is always disabled during a prediction. |
| `Workflow.ReaderLoadEnd` | src/pages/Diagnostics/DiagnosticsPage.tsx:70-73 | The reader's `onloadend` sets the image to the reader's result and clears `isUploading`. |
| `Workflow.ReaderError` | src/pages/Diagnostics/DiagnosticsPage.tsx:74-77 | The reader's `onerror` clears `isUploading` and alerts 'Gagal membaca file gambar.', leaving the image. |
| `Workflow.TakePhoto` | src/pages/Diagnostics/DiagnosticsPage.tsx:86-88 | Take photo sets `isUploading` and the name 'camera_capture.jpg' and starts a 1500 ms timer. |
| `Workflow.PhotoTimer` | src/pages/Diagnostics/DiagnosticsPage.tsx:89-92 | The timer installs '/img/placeholder-plant.jpg' and clears `isUploading`. |
| `Workflow.EditImage` | src/pages/Diagnostics/DiagnosticsPage.tsx:95-102 | Edit empties the input and clears the image, the file name and `isUploading`; `EditImageClearsOnlyTheUpload` states its consequences. |
| `Workflow.CanStartDiagnosis` | src/pages/Diagnostics/DiagnosticsPage.tsx:160-161 | A plant is selected, a non-empty image is present, and neither an upload nor a prediction runs; `ButtonEnabledExactlyWhenReady` ties it to the button. |
| `Workflow.ButtonLabel` | src/pages/Diagnostics/DiagnosticsPage.tsx:216-220 | 'Mendiagnosa...' during a prediction, else 'Menunggu Upload...' during an upload, else 'Mulai Diagnosa'; `DisabledButtonIsExplained` relates it to the disabled flag. |
| `Workflow.ShowErrorAlert` | src/pages/Diagnostics/DiagnosticsPage.tsx:197 | The alert shows when the error is non-empty and the dialog is closed; `RecordedErrorIsVisible` states when it shows in reachable states. |
| `Workflow.ShowPlantHint` | src/pages/Diagnostics/DiagnosticsPage.tsx:223-227 | The plant hint shows when no plant is selected and no prediction runs. |
| `Workflow.ShowUploadHint` | src/pages/Diagnostics/DiagnosticsPage.tsx:228-235 | The upload hint shows when a plant is selected, no image is present, and neither an upload nor a prediction runs. |
| `PageProperties.ButtonEnabledExactlyWhenReady` | src/pages/Diagnostics/DiagnosticsPage.tsx:160-161 | The button is enabled if and only if a plant is selected, an image is present, and neither an upload nor a prediction is running. During a prediction the label reads 'Mendiagnosa...'. |
| `PageProperties.DisabledButtonIsExplained` | src/pages/Diagnostics/DiagnosticsPage.tsx:216-235 | The button is disabled exactly when a busy label or one of the two hints is visible. The two hints are never shown together. |
| `PageProperties.UploadLimitIsInclusive` | src/pages/Diagnostics/DiagnosticsPage.tsx:63-68 | A file of exactly 5 MiB is read and sets `isUploading` and its name. A file one byte larger is refused and changes only the input. |
| `PageProperties.EditImageClearsOnlyTheUpload` | src/pages/Diagnostics/DiagnosticsPage.tsx:95-102 | Edit clears the image, the file name, `isUploading` and the input. It keeps the plant, the result, the error, the busy flag and the dialog flag. Afterwards neither the button nor the handler will start a diagnosis. |
| `PageProperties.StartThenSettle` | src/pages/Diagnostics/DiagnosticsPage.tsx:110-134 | An issued request followed by its completion ends with `isPredicting` false. Success opens the dialog on the data with no error recorded, so no alert appears when the dialog closes. Failure leaves the dialog as it was and no result, and records a non-empty error that is visible exactly when the dialog is closed. |
| `PageProperties.StartGuardIgnoresBusyFlags` | src/pages/Diagnostics/DiagnosticsPage.tsx:105-108 | The handler's decision does not depend on `isUploading` or `isPredicting`. |
| `PageProperties.CameraPhotoCannotBeDiagnosed` | src/pages/Diagnostics/DiagnosticsPage.tsx:86-108 | When a plant is selected and the input is empty, a photo whose timer has fired enables the button. The handler then only alerts. |
| `PageProperties.CameraPhotoSendsEarlierFile` | src/pages/Diagnostics/DiagnosticsPage.tsx:86-116 | When the input still holds an earlier file, a photo whose timer has fired shows the placeholder and enables the button. A start then sends the earlier file. |
| `PageProperties.StaleReadSurvivesEdit` | src/pages/Diagnostics/DiagnosticsPage.tsx:67-102 | A read that completes after edit still installs its data URL. The input and the file name stay empty. |
| `PageProperties.RefusedFileIsStillSent` | src/pages/Diagnostics/DiagnosticsPage.tsx:60-116 | An oversized file keeps the earlier image on screen and does not disable an enabled button. Starting then sends the oversized file. |
| `PageProperties.FullResultQueryReadsBack` | src/pages/Diagnostics/DiagnosticsPage.tsx:139-145 | The query's keys come in the order diseaseId, plantType, confidence, image. Each key reads back its field. A decoder that inverts the encoder recovers the image. |
| `Page.DiagnosticsPage.constructor` | src/pages/Diagnostics/DiagnosticsPage.tsx:24-34 | The page mounts with no plant, no image, no file and no result, with no error, and with both busy flags and the dialog flag off. |
| `Page.DiagnosticsPage.SetSelectedPlant` | src/pages/Diagnostics/DiagnosticsPage.tsx:183 | Choosing a plant overwrites the selection and nothing else. |
| `Page.DiagnosticsPage.HandleFileUpload` | src/pages/Diagnostics/DiagnosticsPage.tsx:60-80 | The setter-by-setter handler reaches exactly the state and the effect of `Workflow.FileUpload`. |
| `Page.DiagnosticsPage.OnReaderLoadEnd` | src/pages/Diagnostics/DiagnosticsPage.tsx:70-73 | It installs the reader's result as the image, which is none after a failed read, and clears `isUploading`. Nothing else changes. |
| `Page.DiagnosticsPage.OnReaderError` | src/pages/Diagnostics/DiagnosticsPage.tsx:74-77 | It clears `isUploading` and raises the read-failure alert. The previous image is left in place. |
| `Page.DiagnosticsPage.HandleTakePhoto` | src/pages/Diagnostics/DiagnosticsPage.tsx:86-89 | It sets `isUploading` and the name 'camera_capture.jpg', and starts a 1500 ms timer. The input and the image are untouched. |
| `Page.DiagnosticsPage.OnPhotoTimer` | src/pages/Diagnostics/DiagnosticsPage.tsx:89-92 | The image becomes '/img/placeholder-plant.jpg' and `isUploading` is cleared, whatever happened in between. |
| `Page.DiagnosticsPage.HandleEditImage` | src/pages/Diagnostics/DiagnosticsPage.tsx:95-102 | The handler reaches exactly `Workflow.EditImage`, whose effect `EditImageClearsOnlyTheUpload` states. |
| `Page.DiagnosticsPage.HandleStartDiagnosis` | src/pages/Diagnostics/DiagnosticsPage.tsx:104-113 | The handler up to its `await` reaches exactly the state and the single request or alert of `Workflow.StartDiagnosis`. |
| `Page.DiagnosticsPage.OnPredictionSettled` | src/pages/Diagnostics/DiagnosticsPage.tsx:114-134 | The try, catch and finally after the `await` reach exactly `Workflow.PredictionSettled`. |
| `Page.DiagnosticsPage.SetResultDialogOpen` | src/pages/Diagnostics/DiagnosticsPage.tsx:250 | The dialog's open-change sets the dialog flag and nothing else. Closing keeps the result. |
| `Page.DiagnosticsPage.HandleNavigateToFullResult` | src/pages/Diagnostics/DiagnosticsPage.tsx:137-148 | The handler reaches exactly the state and the navigation of `Workflow.NavigateToFullResult`. |
| `Runs.InitialSatisfiesInv` | src/pages/Diagnostics/DiagnosticsPage.tsx:24-34 | A freshly mounted page with nothing outstanding satisfies the page invariant. |
| `Runs.NextPreservesInv` | src/pages/Diagnostics/DiagnosticsPage.tsx:60-148 | Every event that can happen preserves the invariant. No busy flag outlives its operations. At most one prediction is outstanding. A result and an error are never held together, and neither is held during a prediction. A recorded error is never blank. |
| `Runs.RunPreservesInv` | src/pages/Diagnostics/DiagnosticsPage.tsx:60-148 | Any sequence of events that can happen preserves the invariant. |
| `Runs.ReachableSatisfiesInv` | src/pages/Diagnostics/DiagnosticsPage.tsx:104-208 | Every reachable state satisfies the invariant. In particular, no more than one prediction request is ever outstanding, because the button is disabled while one is. |
| `Runs.QuiescentPageIsActionable` | src/pages/Diagnostics/DiagnosticsPage.tsx:132-220 | Once every read, timer and prediction has completed, neither busy flag is set and the label is 'Mulai Diagnosa'. The button is then enabled exactly when a plant and an image are present. |
| `Runs.RecordedErrorIsVisible` | src/pages/Diagnostics/DiagnosticsPage.tsx:197 | In every reachable state, a recorded error is shown inline whenever the dialog is closed, since it is never blank. No result is held beside a visible alert. |
| `Runs.SubmitFromFreshPage` | src/pages/Diagnostics/DiagnosticsPage.tsx:104-116 | On a fresh page, choosing a plant, then an accepted file that reads, then start, leaves exactly one prediction outstanding. No result or error is held. |
| `Runs.UploadThenDiagnoseSucceeds` | src/pages/Diagnostics/DiagnosticsPage.tsx:118-120 | Cabai, a 2 MiB file, and a 200 answer with data lead to an open dialog on the data. No error is recorded, and no read, timer or prediction is outstanding. |
| `Runs.UploadThenDiagnoseThrows` | src/pages/Diagnostics/DiagnosticsPage.tsx:126-133 | Selada, a file, and a call that throws lead to a closed dialog and no result. A non-empty inline alert shows, and no read, timer or prediction is outstanding. |
| `Runs.CameraRunIssuesNoRequest` | src/pages/Diagnostics/DiagnosticsPage.tsx:86-108 | On a fresh page, choosing tomat and taking a photo enables the button. Clicking it changes nothing and issues no request. |

## Left out

- Rendering: JSX, icons, class strings and the plant display table (DiagnosticsPage.tsx:36-58) are presentation.
- Browser APIs become inputs and effects. The FileReader, `setTimeout`, `alert`, `useNavigate` and `console.error` are not modelled. Handlers return an `Effect`, and completions are separate events.
- The contents of the data URL are not modelled. The reader's result is an arbitrary string.
- `handleUploadClick` (DiagnosticsPage.tsx:82-84) only opens the browser's file picker. The model starts at the resulting change event.
- `fileInputRef.current` is taken to be always mounted. ImageUploader, PlantSelector, PredictionResultDialog and DiagnosisHistory are not part of this model, so the model cannot see when they render the input or call their callbacks. Any call is allowed.
- `encodeURIComponent` is a parameter. The serialisation of `URLSearchParams` into the URL string (WHATWG URL Standard, application/x-www-form-urlencoded serializing) is not modelled. The navigation target is the path and the ordered key/value pairs.
- `confidence.toString()` is float formatting. Confidence is kept as the text it is sent as.
- `diagnosisApi.predict` and the `PredictionData` and `ApiError` types belong to `src/lib/api/diagnosis`, which is not part of this model. A response is a status, an optional payload and a message; a thrown error is a message. Absent messages are empty strings.
- `handleViewDetailHistory` and `handleFilterHistory` (DiagnosticsPage.tsx:150-158) only log and alert.
- React re-rendering and state batching are not modelled. Each handler's setter calls run as sequential updates of the record.
- src/components/DonePlantCard.tsx and src/App.tsx are presentation and a static route table.
