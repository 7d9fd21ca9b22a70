# Street infrastructure classifier API — decision core in Dafny

The API (`api.py`) answers street photos with one of six infrastructure
classes (garbage, open manhole, pothole, normal road, broken or working
streetlight), a confidence and an operational priority. This project models
the decisions it makes around the opaque Keras model:

- **Class tables** (`config.dfy`, module `Config`): the ordered label list
  and its description and priority tables.
- **Result interpretation** (`interpretation.dfy`, module `Interpretation`):
  `np.argmax` on the score vector, the label lookup, the confidence, the
  priority and description lookups with their fallbacks, and the
  `all_predictions` map of `/predict`.
- **Startup model status** (`startup.dfy`, module `ModelStatus`): the
  module-level `model` / `model_status` / `model_error` decision.
- **Endpoints** (`endpoints.dfy`, module `Endpoints`): `/predict`,
  the loop of `/predict/batch`, and `/classes`, over the startup state.
- `outcomes.dfy` (module `Outcomes`): `Option`, `Outcome` (a value, or a
  raised exception carried as its `str(e)` text) and `Response` (a JSON body,
  or an HTTP error with code and detail).

The model is a value `Model(predict)` with `predict: Tensor -> Outcome<seq<real>>`,
giving `predictions[0]` or raising. Image decoding (`Image.open` plus
`preprocess_image`) is a parameter `Decoder = seq<byte> -> Outcome<Tensor>`.
Whether the artifact exists, and how `os.path.getsize`, `load_model` and
`count_params` end, are the fields of an `Environment` given to startup.

`/predict/batch` has no size limit and no per-item isolation: the first
failing file aborts the whole batch with a 400 (api.py:186-214). The model
status is decided once, at import (api.py:57-79).

## Model

| member | source | states |
|---|---|---|
| `Config.ClassNamesDistinct` | api.py:28 | no label occurs twice in the ordered label list |
| `Config.TablesCoverClassNames` | api.py:28-52 | every label has a priority and a description, and both tables are keyed by exactly the label set, so the "LOW"/"Unknown" fallbacks are unreachable for a label |
| `Config.PrioritiesAreLevels` | api.py:45-52 | every priority is one of CRITICAL, HIGH, MEDIUM, LOW; `open_manhole` is CRITICAL and `potholes` is HIGH |
| `Interpretation.Argmax` | api.py:157 | the chosen index is in range, its entry is maximal, and every earlier entry is strictly smaller (first maximum, as `np.argmax`) |
| `Interpretation.FirstMaxUnique` | api.py:157 | the first-maximum property determines the index uniquely |
| `Interpretation.Classify` | api.py:157-166 | an empty vector raises the argmax error; on success the index is the first maximum and below six, the label is `CLASS_NAMES[index]`, the confidence is that entry times 100, priority and description are the table entries for the label and the priority is a documented level; any other failure is the list-index error with the first maximum at position six or later |
| `Interpretation.ClassifySucceedsIff` | api.py:157-160 | the shared interpretation succeeds exactly when the first maximum lies at one of the six labelled positions |
| `Interpretation.ClassifySixScores` | api.py:157-160 | a vector of exactly six scores always yields one of the six labels |
| `Interpretation.AllPredictions` | api.py:167-170 | every key of the per-label map is a label and each of the first n labels is a key (exact keys and values in `AllPredictionsSpec`) |
| `Interpretation.AllPredictionsSpec` | api.py:167-170 | the per-label map has exactly the labels as keys, and label i maps to score i times 100 |
| `Interpretation.Interpret` | api.py:156-171 | `/predict`'s interpretation succeeds exactly when the vector has at least six entries and its first maximum is labelled; it then gives the label, confidence, priority, description and the full per-label map; an empty vector raises the argmax error, a non-empty vector shorter than six raises numpy's index error, and a vector of six or more whose interpretation fails raises the list-index error |
| `Interpretation.ConfidenceInRange` | api.py:158-170 | scores in [0, 1] give a confidence and per-label values in [0, 100] |
| `Interpretation.PotholeExample` | api.py:156-171 | the vector [0.01, 0.02, 0.90, 0.03, 0.02, 0.02] is read as `potholes`, confidence 90, priority HIGH |
| `ModelStatus.StartupAsWritten` | api.py:57-79 | startup as coded: the status is never NOT_LOADED afterwards, NOT_FOUND exactly when the artifact is absent, LOADED exactly when every step succeeds and then with a model and no error, a model is kept exactly when the artifact exists and getsize and load_model succeed, an error text is stored exactly when the status is not LOADED and it is the not-found text or `str(e)` of the step that raised, any kept model is the loaded one |
| `ModelStatus.AsWrittenKeepsModelOnParamCountFailure` | api.py:67-73 | when `count_params()` raises after a successful load, the status is ERROR yet the model is kept (the corrected startup keeps none) |
| `ModelStatus.Startup` | api.py:57-79 | corrected startup: NOT_FOUND exactly when the artifact is absent, LOADED exactly when every step succeeds, a model is kept exactly when LOADED and is the loaded one, an error text exactly when not LOADED, the not-found text names the path, and on ERROR the stored text is `str(e)` of the step that raised (getsize, load or count_params) |
| `ModelStatus.StartupDiffersOnlyOnParamCountFailure` | api.py:61-79 | outside the `count_params()` failure the corrected and the as-written startup agree |
| `ModelStatus.Start` | api.py:57-79 | the corrected startup block (the source's statements plus `model := None` after a `count_params()` failure) ends in the state `Startup` describes |
| `Endpoints.Unavailable` | api.py:144-145 | the 503 reply: detail "Model not available: " followed by the stored error, or by "None" when none is stored |
| `Endpoints.Infer` | api.py:149-156 | decoding then inference: succeeds exactly when both do, with the model's vector for the decoded image; otherwise carries the text of the step that raised |
| `Endpoints.Predict` | api.py:132-175 | without a model the reply is the 503; with a model every error is a 400 whose detail is "Prediction failed: " followed by the text of the decoding, inference or interpretation exception, and otherwise the reply is the interpretation of the model's vector; a success carries one of the labels, a documented priority, that label's description and one score per label (details in `PredictGuard` and `PredictOkIff`) |
| `Endpoints.PredictGuard` | api.py:144-145 | without a model `/predict` returns 503 with "Model not available: " and the stored error, independently of the upload and of the decoder |
| `Endpoints.PredictOkIff` | api.py:144-175 | `/predict` succeeds exactly when there is a model, decoding and inference succeed and the vector covers the labels with a labelled first maximum; the reply carries that label, its score times 100, priority and description; every failure is a 400 or a 503 |
| `Endpoints.PredictWithSixScoreModel` | api.py:147-171 | with a model that always yields six scores, every decodable upload succeeds with one of the labels and a documented priority |
| `Endpoints.PredictAfterStartup` | api.py:144-145 | after the corrected startup, `/predict` answers 503 exactly when the status is not LOADED |
| `Endpoints.ClassifyFile` | api.py:187-204 | one batch file: it succeeds exactly when decoding and inference succeed, the vector is non-empty and its first maximum is below six; a decoding or inference exception is passed on, otherwise the classification's exception text; a success carries the file's filename, the label at the first maximum, its score times 100, and that label's priority and description (agreement with `/predict` in `BatchItemAgreesWithPredict`) |
| `Endpoints.BatchItemAgreesWithPredict` | api.py:186-204 | a file that `/predict` accepts gets the same label, confidence, priority and description in a batch, under its own filename |
| `Endpoints.PredictBatch` | api.py:177-214 | no model: 503 before any file is read; otherwise the batch succeeds exactly when every file does, with entry i the interpretation of file i under its filename and `total == processed == len(results) ==` the number of files; on failure the reply is a 400 with the first failing file's error, every earlier file succeeded and no later file was read |
| `Endpoints.CorruptSecondImageAbortsBatch` | api.py:186-214 | an undecodable second file among three aborts the batch with its decode error after two files |
| `Endpoints.GetClasses` | api.py:216-228 | the catalog lists the six labels in table order, each with its own description and priority, none missing |

## Left out

- FastAPI application, CORS middleware, routing and uvicorn startup (api.py:84-96, 233-247): transport plumbing; HTTP errors are the `Response` datatype.
- The `/` and `/health` endpoints (api.py:116-130): they only echo constants and the startup state.
- FastAPI's own request validation (a request without files is answered 422 by the framework): not in the handler code.
- Keras `load_model`, `model.predict` and `count_params`, and the TensorFlow logging setup: foreign calls; their outcomes are inputs (`Environment`, `Model.predict`).
- `preprocess_image` and `Image.open` (api.py:101-110): resampling and scaling need floating-point image numerics; they are one opaque fallible `Decoder`.
- `round(..., 2)` on confidences: float rounding; all confidences are the unrounded real value.
- Floating point: scores are mathematical reals, so NaN (which `np.argmax` would pick) and float32 precision are not modelled.
- `predictions[0]`: `Model.predict` returns the first row directly; a model output with no rows is not modelled.
- `await file.read()`, the `VOLUME_PATH` environment variable and `os.path.join` (the model path is an input), `os.path.exists` (an input) and all logging: I/O.
- Key order of `all_predictions`: a Dafny `map` is unordered, so the order of the JSON keys (label order in the source) is not modelled; only the keys and values are.
- Exception texts: the numpy and list-index messages are written as their usual `str(e)` texts; texts from the decoder and the model are opaque strings.

## Findings

| source | as written | input that shows it | evidently intended | confidence | as-written member | corrected member |
|---|---|---|---|---|---|---|
| api.py:67-73 | `model` is assigned by `load_model` before `count_params()` runs in the same `try`; the `except` sets status ERROR and an error text but leaves `model` set | the artifact exists and loads, and `count_params()` raises (for a model that is not built) | `model` is `None` whenever the status is not LOADED, so both predict endpoints return 503 | medium; not executed | `ModelStatus.AsWrittenKeepsModelOnParamCountFailure` | `ModelStatus.Startup` |
