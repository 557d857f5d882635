# Deepfake detection API: the `/predict/` decision pipeline

This project models the request handler of a small FastAPI service that tells
whether an uploaded face image is real or a deepfake. `POST /predict/` runs a
fixed chain of guards and then a threshold rule that turns the classifier's
"real" score into a verdict:

1. no classifier loaded at start-up: status 500;
2. a content type other than `image/jpeg` or `image/png` (exact match, a
   missing content type included): status 400;
3. the bytes are decoded into a tensor and moved to the device inside a
   `try`; the `except Exception` turns every failure into status 500, the
   `HTTPException(400)` raised for an undecodable image included;
4. the network's sigmoid output `s` in [0, 1] becomes `Real` with confidence
   `s` when `s > 0.5`, and `Fake` with confidence `1 - s` otherwise, so the
   boundary `s = 0.5` is `Fake`.

`GET /` is a liveness probe that answers a fixed status.

Everything is pure (module `DeepfakeApi` in `predict.dfy`, helper datatypes
in `wrappers.dfy`). The model handle that the service assigns once at start-up
is the boolean `modelLoaded`. The collaborators are parameters: the image
transform (`decode`, which yields `None` on any failure), the move to the
device (`toDevice`, `None` when it raises) and the network (`classify`). The
tensor is a type parameter. The score is a `real` restricted to [0, 1], the
range of the network's final `Sigmoid` layer (api/model.py:21).

## Model

| member | source | states |
|---|---|---|
| `DeepfakeApi.ReadRoot` | api/main.py:81-83 | the liveness probe always answers the fixed running status; it takes no input and does not consult the model handle |
| `DeepfakeApi.LabelName` | api/main.py:64-71 | the label strings: "Real" exactly for `Real` and "Fake" exactly for `Fake` |
| `DeepfakeApi.IsAllowedType` | api/main.py:47-48 | an upload is accepted exactly when its content type is `image/jpeg` or `image/png`; a missing content type is refused |
| `DeepfakeApi.Verdict` | api/main.py:64-71 | score > 0.5 gives `Real` (serialised "Real"), not a deepfake, confidence = score; score <= 0.5 (0.5 included) gives `Fake` (serialised "Fake"), a deepfake, confidence = 1 - score; confidence = max(s, 1 - s), lies in [0.5, 1.0], and `is_deepfake` holds exactly for `Fake` |
| `DeepfakeApi.ScoreOf` | api/main.py:64-71 | the inverse of the threshold rule on well-formed answers: a score in [0, 1] that is above one half exactly for `Real` |
| `DeepfakeApi.TryTransform` | api/main.py:50-54 | a missing tensor raises the 400 "could not process"; the block succeeds exactly when decoding and the device move both succeed, with the moved tensor |
| `DeepfakeApi.CatchAll` | api/main.py:55-57 | every exception from the `try`, whatever it was, becomes the 500 "Error processing the image."; success passes through |
| `DeepfakeApi.Predict` | api/main.py:40-79 | unloaded model gives 500 whatever the upload; loaded model and refused type gives 400; allowed type and any failure inside the `try` (undecodable image or failed device move) gives the 500 "Error processing the image."; success exactly when all guards pass, and then the answer is the verdict on the score of the decoded tensor; errors are only 400 or 500 |
| `DeepfakeApi.ModelGuardComesFirst` | api/main.py:42-43 | with no model loaded the outcome is the same 500 for any content type, bytes, decoder, device move and classifier |
| `DeepfakeApi.TypeGuardPrecedesDecoding` | api/main.py:45-48 | with a refused content type the outcome is the 400 and does not depend on the bytes, the decoder, the device move or the classifier, so decoding and inference are never reached |
| `DeepfakeApi.VerdictDependsOnlyOnScore` | api/main.py:59-77 | two successful requests whose tensors get the same score receive the same answer |
| `DeepfakeApi.ScoreRoundTrip` | api/main.py:64-71 | the score can be recovered from the verdict on it: the rule loses no information |
| `DeepfakeApi.VerdictRoundTrip` | api/main.py:64-71 | every well-formed answer is the verdict on the score recovered from it |
| `DeepfakeApi.WellFormedIsReachable` | api/main.py:64-71 | the answers the rule can give are exactly the well-formed ones: each is the verdict on some sigmoid output |
| `DeepfakeApi.VerdictMirror` | api/main.py:64-71 | scores mirrored about one half get the same confidence and opposite labels, except at one half, where both are `Fake` |
| `DeepfakeApi.CatchUnexpected` | api/main.py:55-57 | corrected `except`: an `HTTPException` passes through unchanged; any other exception becomes the 500 |
| `DeepfakeApi.PredictAsIntended` | api/main.py:40-79 | corrected handler: an undecodable image gives the 400 "could not process", and a 400 is returned exactly for a refused type or an undecodable image when the model is loaded |
| `DeepfakeApi.CorruptImageReportedAs500` | api/main.py:50-57 | for an allowed type and an undecodable image, the `try` raises 400 but the handler as written answers 500; the corrected handler answers 400 |
| `DeepfakeApi.AsIntendedAgreesElsewhere` | api/main.py:40-79 | the corrected handler differs from the written one only on undecodable images |

## Left out

- Verdict: reports the unrounded confidence. The handler rounds it to four decimal places (api/main.py:75) with floating-point `round`, which a `real` model does not capture. The bounds are stated on the unrounded value.
- Predict: does not model an exception raised by the network's forward pass or by `output.item()` (api/main.py:59-62). Those lines are outside the `try`, so the web framework's generic error answer applies; that framework is not part of this model.
- Floating point: the network computes in floating point. NaN outputs and float rounding at the 0.5 threshold are not modelled; the score is an exact real in [0, 1].
- Start-up loading of `140K_resnet50_model.pth` and device selection (api/main.py:21-33) are file and GPU I/O. They are reduced to the `modelLoaded` flag.
- Reading the upload (api/main.py:45), logging, routing and JSON serialisation are I/O. The upload is the `image` parameter.
- api/model.py (ResNet-50 with an MLP head) is an opaque classifier, the `classify` parameter. api/utils.py (PIL decoding, resize and normalisation) is an opaque decoder, the `decode` parameter.
- api/database.py holds only database connection and collection handles. api/schemas.py holds declarations without behaviour; `ImageAnalysisResult` has the same shape as `PredictionResponse`.
- Registration, login, tokens, history and persistence are outside the `/predict/` handler and are not modelled; api/database.py only opens the `users` and `analyses` collections.

## Findings

| source | as written | input that shows it | evidently intended | confidence | as-written member | corrected member |
|---|---|---|---|---|---|---|
| api/main.py:50-57 | the `HTTPException(400)` raised at line 53 sits inside the `try`, so the `except Exception` at line 55 catches it and raises a 500 | a `image/png` upload whose bytes the decoder rejects (for example empty bytes), with the model loaded | the client receives 400 "Could not process the image. It might be corrupted." | high; not executed | `DeepfakeApi.CorruptImageReportedAs500` | `DeepfakeApi.PredictAsIntended` |
