/**
 * The values the diagnosis page works with: the plant types, the file held by
 * the file input, what the prediction service answers, the navigation target,
 * and the side effects a handler asks the browser to perform.
 */
module Domain {
  import opened Wrappers

  /** The closed set of plant types the page offers. */
  datatype Plant = Cabai | Tomat | Selada

  /** A file held by the page's file input: its name and its size in bytes. */
  datatype File = File(name: string, size: nat)

  /** The service's diagnosis; `confidence` is kept as the text it is sent as. */
  datatype PredictionData = PredictionData(diseaseId: string, tanaman: string, confidence: string)

  /** A response of the prediction service; an absent `message` is the empty string. */
  datatype ApiResponse = ApiResponse(status: int, data: Option<PredictionData>, message: string)

  /** The error thrown by the prediction call; an absent `message` is the empty string. */
  datatype ApiError = ApiError(message: string)

  /** How the awaited prediction call ends: with a response, or by throwing. */
  datatype PredictOutcome = Responded(response: ApiResponse) | Threw(error: ApiError)

  /** How a FileReader started on an accepted file ends. */
  datatype ReadOutcome = Loaded(dataUrl: string) | ReadFailed

  /** A route and its query parameters, in the order they were appended. */
  datatype NavTarget = NavTarget(path: string, query: seq<(string, string)>)

  /** What a handler asks of the world outside the page's state. */
  datatype Effect =
    | NoEffect
    | Alert(message: string)
    | ReadAsDataUrl(file: File)
    | StartTimer(delayMs: nat)
    | Predict(plant: Plant, file: File)
    | Navigate(target: NavTarget)

  /** Largest accepted upload: 5 MiB. */
  const MaxUploadBytes: nat := 5 * 1024 * 1024
  /** Delay of the simulated camera capture, in milliseconds. */
  const PhotoDelayMs: nat := 1500
  const CameraFileName := "camera_capture.jpg"
  const PlaceholderImage := "/img/placeholder-plant.jpg"
  const FullResultPath := "/diagnostics-result"

  const FileTooLargeMessage := "Ukuran file maksimal adalah 5MB"
  const ReadFailedMessage := "Gagal membaca file gambar."
  const NotReadyMessage := "Pilih tanaman dan unggah foto terlebih dahulu"
  const ResponseFallbackMessage := "Gagal mendapatkan hasil diagnosa."
  const ThrownFallbackMessage := "Gagal melakukan diagnosa. Silakan coba lagi."

  const DiagnosingLabel := "Mendiagnosa..."
  const WaitingUploadLabel := "Menunggu Upload..."
  const StartLabel := "Mulai Diagnosa"
}
