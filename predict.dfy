/**
  The `/predict/` endpoint of the deepfake detection API (api/main.py).

  The handler is a straight chain of guards followed by a threshold rule:
  it refuses the request when the classifier is not loaded, refuses any
  upload that is not declared as JPEG or PNG, turns the bytes into a tensor
  inside a `try` whose `except Exception` turns every failure into a 500,
  and finally maps the classifier's "real" score to a verdict.

  The collaborators are parameters: `decode` is the image transform of
  api/utils.py (it returns `None` on any failure), `toDevice` is the move of
  the tensor to the selected device (`None` when it raises), and `classify`
  is the loaded network, whose sigmoid output layer keeps the score in
  [0, 1]. The tensor type is the type parameter `T`.
*/
module DeepfakeApi {
  import opened Wrappers

  type Bytes = seq<bv8>

  /** The network's output: a sigmoid, so a real number in [0, 1]. */
  type Score = s: real | 0.0 <= s <= 1.0

  /** The two verdicts the handler reports as the strings "Real" and "Fake". */
  datatype Label = Real | Fake

  /** The JSON body of a successful answer (`PredictionResponse`). */
  datatype PredictionResponse = PredictionResponse(prediction: Label, confidence: real, isDeepfake: bool)

  /** What the client observes: an HTTP error with its detail, or a verdict. */
  datatype Outcome = Err(status: int, detail: string) | Ok(response: PredictionResponse)

  /** An exception raised inside the handler's `try` block. */
  datatype Raised =
    | HttpError(status: int, detail: string)  // an `HTTPException`
    | RuntimeError                            // any other exception

  const AllowedContentTypes: seq<string> := ["image/jpeg", "image/png"]

  const ModelNotLoadedDetail: string := "Model is not loaded. Cannot perform prediction."
  const InvalidTypeDetail: string := "Invalid file type. Please upload a JPEG or PNG image."
  const CorruptImageDetail: string := "Could not process the image. It might be corrupted."
  const ProcessingErrorDetail: string := "Error processing the image."
  const RunningStatus: string := "Deepfake Detection API is running"

  /** The liveness answer of `GET /`. */
  datatype RootResponse = RootResponse(status: string)

  /** `GET /` answers with a fixed status whatever state the classifier is in. */
  function ReadRoot(): (r: RootResponse)
    ensures r.status == RunningStatus
  {
    RootResponse(RunningStatus)
  }

  /** The string the JSON body carries for a label: how `prediction` is serialised. */
  function LabelName(l: Label): (s: string)
    ensures s == "Real" <==> l == Real
    ensures s == "Fake" <==> l == Fake
  {
    match l
    case Real => "Real"
    case Fake => "Fake"
  }

  /**
    The content-type allow-list: an exact, case-sensitive match against one of
    two media types; a missing content type is refused.
  */
  function IsAllowedType(contentType: Option<string>): (b: bool)
    ensures b <==> contentType == Some("image/jpeg") || contentType == Some("image/png")
  {
    contentType.Some? && contentType.value in AllowedContentTypes
  }

  /** The invariant every successful answer keeps. */
  predicate WellFormed(p: PredictionResponse) {
    && 0.5 <= p.confidence <= 1.0
    && (p.isDeepfake <==> p.prediction == Fake)
    && (p.prediction == Real ==> p.confidence > 0.5)
  }

  /**
    The threshold rule: a score strictly above one half is "Real" with the
    score as confidence; anything else, one half included, is "Fake" with
    the complement as confidence. The confidence is the larger of the two
    class probabilities.
  */
  function Verdict(s: Score): (r: PredictionResponse)
    ensures s > 0.5 ==> r.prediction == Real && !r.isDeepfake && r.confidence == s
    ensures s <= 0.5 ==> r.prediction == Fake && r.isDeepfake && r.confidence == 1.0 - s
    ensures LabelName(r.prediction) == if s > 0.5 then "Real" else "Fake"
    ensures r.confidence == if s >= 1.0 - s then s else 1.0 - s
    ensures WellFormed(r)
  {
    if s > 0.5 then PredictionResponse(Real, s, false)
    else PredictionResponse(Fake, 1.0 - s, true)
  }

  /** The score a well-formed answer was computed from. */
  function ScoreOf(p: PredictionResponse): (s: real)
    requires WellFormed(p)
    ensures 0.0 <= s <= 1.0
    ensures p.prediction == Real <==> s > 0.5
  {
    if p.prediction == Real then p.confidence else 1.0 - p.confidence
  }

  /** The body of the `try` block: decode, refuse a missing tensor, move it to the device. */
  function TryTransform<T>(image: Bytes, decode: Bytes -> Option<T>, toDevice: T -> Option<T>): (r: Result<T, Raised>)
    ensures decode(image).None? ==> r == Failure(HttpError(400, CorruptImageDetail))
    ensures r.Success? <==> decode(image).Some? && toDevice(decode(image).value).Some?
    ensures r.Success? ==> r.value == toDevice(decode(image).value).value
  {
    match decode(image)
    case None => Failure(HttpError(400, CorruptImageDetail))
    case Some(tensor) =>
      match toDevice(tensor)
      case None => Failure(RuntimeError)
      case Some(placed) => Success(placed)
  }

  /** The handler's `except Exception`: every exception, an `HTTPException` included, becomes a 500. */
  function CatchAll<T>(attempt: Result<T, Raised>): (r: Result<T, Raised>)
    ensures attempt.Success? ==> r == attempt
    ensures attempt.Failure? ==> r == Failure(HttpError(500, ProcessingErrorDetail))
  {
    match attempt
    case Success(_) => attempt
    case Failure(_) => Failure(HttpError(500, ProcessingErrorDetail))
  }

  /**
    The `/predict/` handler. The guards run in order; the first that fails
    decides the status, and nothing after it is consulted.
  */
  function Predict<T>(modelLoaded: bool, contentType: Option<string>, image: Bytes,
                      decode: Bytes -> Option<T>, toDevice: T -> Option<T>, classify: T -> Score): (r: Outcome)
    ensures !modelLoaded ==> r == Err(500, ModelNotLoadedDetail)
    ensures modelLoaded && !IsAllowedType(contentType) ==> r == Err(400, InvalidTypeDetail)
    ensures modelLoaded && IsAllowedType(contentType) && !r.Ok? ==> r == Err(500, ProcessingErrorDetail)
    ensures r.Ok? <==> modelLoaded && IsAllowedType(contentType)
                       && decode(image).Some? && toDevice(decode(image).value).Some?
    ensures r.Ok? ==> r.response == Verdict(classify(toDevice(decode(image).value).value))
    ensures r.Err? ==> r.status in {400, 500}
  {
    if !modelLoaded then Err(500, ModelNotLoadedDetail)
    else if !IsAllowedType(contentType) then Err(400, InvalidTypeDetail)
    else
      match CatchAll(TryTransform(image, decode, toDevice))
      case Failure(HttpError(status, detail)) => Err(status, detail)
      case Success(tensor) => Ok(Verdict(classify(tensor)))
  }

  /** Whatever the upload and the collaborators, an unloaded model answers the same 500. */
  lemma ModelGuardComesFirst<T, U>(contentType: Option<string>, image: Bytes,
                                   decode: Bytes -> Option<T>, toDevice: T -> Option<T>, classify: T -> Score,
                                   contentType': Option<string>, image': Bytes,
                                   decode': Bytes -> Option<U>, toDevice': U -> Option<U>, classify': U -> Score)
    ensures Predict(false, contentType, image, decode, toDevice, classify)
         == Predict(false, contentType', image', decode', toDevice', classify')
         == Err(500, ModelNotLoadedDetail)
  {
  }

  /**
    A refused content type is answered before the bytes are looked at: the
    outcome does not depend on the image, the decoder, the device or the
    classifier.
  */
  lemma TypeGuardPrecedesDecoding<T, U>(contentType: Option<string>,
                                        image: Bytes, decode: Bytes -> Option<T>, toDevice: T -> Option<T>, classify: T -> Score,
                                        image': Bytes, decode': Bytes -> Option<U>, toDevice': U -> Option<U>, classify': U -> Score)
    requires !IsAllowedType(contentType)
    ensures Predict(true, contentType, image, decode, toDevice, classify)
         == Predict(true, contentType, image', decode', toDevice', classify')
         == Err(400, InvalidTypeDetail)
  {
  }

  /**
    Two uploads that pass the guards and whose tensors the classifier scores
    alike get the same answer: the verdict is a function of the score alone.
  */
  lemma VerdictDependsOnlyOnScore<T, U>(contentType: Option<string>, image: Bytes,
                                        decode: Bytes -> Option<T>, toDevice: T -> Option<T>, classify: T -> Score,
                                        contentType': Option<string>, image': Bytes,
                                        decode': Bytes -> Option<U>, toDevice': U -> Option<U>, classify': U -> Score)
    requires Predict(true, contentType, image, decode, toDevice, classify).Ok?
    requires Predict(true, contentType', image', decode', toDevice', classify').Ok?
    requires classify(toDevice(decode(image).value).value) == classify'(toDevice'(decode'(image').value).value)
    ensures Predict(true, contentType, image, decode, toDevice, classify)
         == Predict(true, contentType', image', decode', toDevice', classify')
  {
  }

  /** A verdict gives back the score it came from: the threshold rule loses no information. */
  lemma ScoreRoundTrip(s: Score)
    ensures ScoreOf(Verdict(s)) == s
  {
  }

  /** Every well-formed answer is the verdict on exactly the score `ScoreOf` recovers. */
  lemma VerdictRoundTrip(p: PredictionResponse)
    requires WellFormed(p)
    ensures Verdict(ScoreOf(p)) == p
  {
  }

  /**
    The answers the threshold rule can give are exactly the well-formed ones:
    every well-formed answer is the verdict on some sigmoid output.
  */
  lemma WellFormedIsReachable(p: PredictionResponse)
    requires WellFormed(p)
    ensures exists s: Score :: Verdict(s) == p
  {
    VerdictRoundTrip(p);
  }

  /**
    Scores mirrored about one half get opposite labels and the same
    confidence, except at one half itself, which both sides call "Fake".
  */
  lemma VerdictMirror(s: Score)
    ensures Verdict(1.0 - s).confidence == Verdict(s).confidence
    ensures s != 0.5 <==> Verdict(1.0 - s).prediction != Verdict(s).prediction
  {
  }

  /**
    The `except` as evidently intended: an `HTTPException` raised inside the
    `try` passes through unchanged; only other exceptions become a 500.
  */
  function CatchUnexpected<T>(attempt: Result<T, Raised>): (r: Result<T, Raised>)
    ensures attempt.Success? || attempt.error.HttpError? ==> r == attempt
    ensures attempt == Failure(RuntimeError) ==> r == Failure(HttpError(500, ProcessingErrorDetail))
  {
    match attempt
    case Failure(RuntimeError) => Failure(HttpError(500, ProcessingErrorDetail))
    case _ => attempt
  }

  /** The handler with the corrected `except`: an undecodable image is the client's 400. */
  function PredictAsIntended<T>(modelLoaded: bool, contentType: Option<string>, image: Bytes,
                                decode: Bytes -> Option<T>, toDevice: T -> Option<T>, classify: T -> Score): (r: Outcome)
    ensures modelLoaded && IsAllowedType(contentType) && decode(image).None? ==> r == Err(400, CorruptImageDetail)
    ensures r.Err? && r.status == 400 <==> modelLoaded && (!IsAllowedType(contentType) || decode(image).None?)
  {
    if !modelLoaded then Err(500, ModelNotLoadedDetail)
    else if !IsAllowedType(contentType) then Err(400, InvalidTypeDetail)
    else
      match CatchUnexpected(TryTransform(image, decode, toDevice))
      case Failure(HttpError(status, detail)) => Err(status, detail)
      case Success(tensor) => Ok(Verdict(classify(tensor)))
  }

  /**
    As written, the 400 raised for an undecodable image is caught by the
    handler's own `except Exception` and the client sees a 500; the corrected
    handler reports the 400.
  */
  lemma CorruptImageReportedAs500<T>(contentType: Option<string>, image: Bytes,
                                     decode: Bytes -> Option<T>, toDevice: T -> Option<T>, classify: T -> Score)
    requires IsAllowedType(contentType) && decode(image).None?
    ensures TryTransform(image, decode, toDevice) == Failure(HttpError(400, CorruptImageDetail))
    ensures Predict(true, contentType, image, decode, toDevice, classify) == Err(500, ProcessingErrorDetail)
    ensures PredictAsIntended(true, contentType, image, decode, toDevice, classify) == Err(400, CorruptImageDetail)
  {
  }

  /** The correction changes nothing but the answer to an undecodable image. */
  lemma AsIntendedAgreesElsewhere<T>(modelLoaded: bool, contentType: Option<string>, image: Bytes,
                                     decode: Bytes -> Option<T>, toDevice: T -> Option<T>, classify: T -> Score)
    requires !(modelLoaded && IsAllowedType(contentType) && decode(image).None?)
    ensures PredictAsIntended(modelLoaded, contentType, image, decode, toDevice, classify)
         == Predict(modelLoaded, contentType, image, decode, toDevice, classify)
  {
  }
}
