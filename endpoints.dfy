/** The `/predict`, `/predict/batch` and `/classes` endpoints, over the
    state that startup left behind. */
module Endpoints {
  import opened Outcomes
  import opened Config
  import opened Interpretation
  import opened ModelStatus

  newtype byte = x: int | 0 <= x < 256

  /** An uploaded file after `await file.read()`. */
  datatype Upload = Upload(filename: Option<string>, contents: seq<byte>)

  /** `Image.open` followed by `preprocess_image`: bytes to model input, or
      the exception either raises. */
  type Decoder = seq<byte> -> Outcome<Tensor>

  /** The 503 reply both predict endpoints give when there is no model;
      a missing error text prints as Python's `None`. */
  function Unavailable<T>(s: ServerState): (r: Response<T>)
    ensures r.Err? && r.code == 503
    ensures s.error.Some? ==> r.detail == "Model not available: " + s.error.value
    ensures s.error.None? ==> r.detail == "Model not available: None"
  {
    Err(503, "Model not available: " + (if s.error.Some? then s.error.value else "None"))
  }

  /** Decode the bytes, then run the model on them. */
  function Infer(m: Model, decode: Decoder, contents: seq<byte>): (r: Outcome<seq<real>>)
    ensures decode(contents).Raised? ==> r == Raised(decode(contents).message)
    ensures r.Done? <==> decode(contents).Done? && m.predict(decode(contents).value).Done?
    ensures r.Done? ==> r.value == m.predict(decode(contents).value).value
    ensures decode(contents).Done? && r.Raised? ==> r.message == m.predict(decode(contents).value).message
  {
    match decode(contents)
    case Raised(e) => Raised(e)
    case Done(t) => m.predict(t)
  }

  /** `/predict`: the guard, then the body of the `try`, whose every
      exception becomes a 400. */
  function Predict(s: ServerState, decode: Decoder, file: Upload): (r: Response<Prediction>)
    ensures s.model.None? ==> r == Unavailable(s)
    ensures r.Err? ==> r.code == 503 || r.code == 400
    ensures r.Err? && r.code == 400 ==>
      s.model.Some? && "Prediction failed: " <= r.detail
    ensures s.model.Some? && r.Err? ==> r.code == 400
    ensures s.model.Some? && Infer(s.model.value, decode, file.contents).Raised? ==>
      r == Err(400, "Prediction failed: " + Infer(s.model.value, decode, file.contents).message)
    ensures s.model.Some? && Infer(s.model.value, decode, file.contents).Done?
            && Interpret(Infer(s.model.value, decode, file.contents).value).Raised? ==>
      r == Err(400, "Prediction failed: " + Interpret(Infer(s.model.value, decode, file.contents).value).message)
    ensures s.model.Some? && Infer(s.model.value, decode, file.contents).Done?
            && Interpret(Infer(s.model.value, decode, file.contents).value).Done? ==>
      r == Ok(Interpret(Infer(s.model.value, decode, file.contents).value).value)
    ensures r.Ok? ==>
      && r.body.className in ClassNames
      && r.body.priority in PriorityLevels
      && r.body.description == ClassDescriptions[r.body.className]
      && r.body.allPredictions.Keys == LabelSet()
  {
    PrioritiesAreLevels();
    match s.model
    case None => Unavailable(s)
    case Some(m) =>
      match Infer(m, decode, file.contents)
      case Raised(e) => Err(400, "Prediction failed: " + e)
      case Done(p) =>
        match Interpret(p)
        case Raised(e) => Err(400, "Prediction failed: " + e)
        case Done(r) => Ok(r)
  }

  /** Without a model, `/predict` answers 503 with the stored error whatever
      the upload and however decoding would behave: nothing is read. */
  lemma PredictGuard(s: ServerState, decode1: Decoder, file1: Upload, decode2: Decoder, file2: Upload)
    requires s.model.None?
    ensures Predict(s, decode1, file1) == Predict(s, decode2, file2)
    ensures Predict(s, decode1, file1).Err? && Predict(s, decode1, file1).code == 503
    ensures s.error.Some? ==> Predict(s, decode1, file1).detail == "Model not available: " + s.error.value
  {
  }

  /** `/predict` succeeds exactly when there is a model, decoding and
      inference succeed, the vector covers every label and its first
      maximum is at a labelled position; the reply is then that label with
      its score, priority and description. */
  lemma PredictOkIff(s: ServerState, decode: Decoder, file: Upload)
    ensures Predict(s, decode, file).Ok? <==>
      && s.model.Some?
      && Infer(s.model.value, decode, file.contents).Done?
      && var p := Infer(s.model.value, decode, file.contents).value;
         |ClassNames| <= |p| && exists k :: 0 <= k < |ClassNames| && IsFirstMax(p, k)
    ensures Predict(s, decode, file).Ok? ==>
      var p := Infer(s.model.value, decode, file.contents).value;
      var r := Predict(s, decode, file).body;
      && IsFirstMax(p, Argmax(p))
      && r.className == ClassNames[Argmax(p)]
      && r.confidence == p[Argmax(p)] * 100.0
      && r.priority == ClassPriority[r.className]
      && r.description == ClassDescriptions[r.className]
    ensures Predict(s, decode, file).Err? ==> Predict(s, decode, file).code in {400, 503}
  {
  }

  /** A model that always returns one score per label makes every decodable
      upload succeed with one of the labels. */
  lemma PredictWithSixScoreModel(s: ServerState, decode: Decoder, file: Upload)
    requires s.model.Some? && decode(file.contents).Done?
    requires forall t :: s.model.value.predict(t).Done? && |s.model.value.predict(t).value| == |ClassNames|
    ensures Predict(s, decode, file).Ok?
    ensures Predict(s, decode, file).body.className in ClassNames
    ensures Predict(s, decode, file).body.priority in PriorityLevels
  {
  }

  /** After (corrected) startup, `/predict` answers 503 exactly when the
      status is not LOADED. */
  lemma PredictAfterStartup(env: Environment, decode: Decoder, file: Upload)
    ensures var r := Predict(Startup(env), decode, file);
      (r.Err? && r.code == 503) <==> Startup(env).status != Loaded
  {
  }

  /** One entry of the batch reply. */
  datatype BatchItem =
    BatchItem(filename: Option<string>, className: string, confidence: real, priority: string, description: string)

  /** The batch reply: `total` and `processed` are both `len(results)`. */
  datatype BatchReply = BatchReply(total: nat, processed: nat, results: seq<BatchItem>)

  /** The loop body of `/predict/batch` for one file. Unlike `/predict` it
      reads no per-label scores, so a short vector does not raise here: a
      file fails only when decoding or inference raises, the vector is
      empty, or its first maximum lies past the labels. */
  function ClassifyFile(m: Model, decode: Decoder, file: Upload): (r: Outcome<BatchItem>)
    ensures Infer(m, decode, file.contents).Raised? ==> r == Raised(Infer(m, decode, file.contents).message)
    ensures r.Done? <==>
      && Infer(m, decode, file.contents).Done?
      && |Infer(m, decode, file.contents).value| > 0
      && Argmax(Infer(m, decode, file.contents).value) < |ClassNames|
    ensures Infer(m, decode, file.contents).Done? && r.Raised? ==>
      r == Raised(Classify(Infer(m, decode, file.contents).value).message)
    ensures r.Done? ==>
      && Infer(m, decode, file.contents).Done?
      && var p := Infer(m, decode, file.contents).value;
         && |p| > 0 && Argmax(p) < |ClassNames|
         && IsFirstMax(p, Argmax(p))
         && r.value.filename == file.filename
         && r.value.className == ClassNames[Argmax(p)]
         && r.value.confidence == p[Argmax(p)] * 100.0
         && r.value.priority == ClassPriority[r.value.className]
         && r.value.description == ClassDescriptions[r.value.className]
  {
    match Infer(m, decode, file.contents)
    case Raised(e) => Raised(e)
    case Done(p) =>
      match Classify(p)
      case Raised(e) => Raised(e)
      case Done(c) => Done(BatchItem(file.filename, c.className, c.confidence, c.priority, c.description))
  }

  /** A file `/predict` accepts gets the same label, confidence, priority and
      description from the batch endpoint, under its own filename. */
  lemma BatchItemAgreesWithPredict(s: ServerState, decode: Decoder, file: Upload)
    requires Predict(s, decode, file).Ok?
    ensures ClassifyFile(s.model.value, decode, file).Done?
    ensures var item := ClassifyFile(s.model.value, decode, file).value;
            var r := Predict(s, decode, file).body;
      && item.filename == file.filename
      && item.className == r.className && item.confidence == r.confidence
      && item.priority == r.priority && item.description == r.description
  {
  }

  /** `/predict/batch`. Files are handled in order; the first exception
      abandons the batch with a 400 and no results. `attempted` counts the
      files whose processing began, so the files after a failing one are
      never touched. */
  method PredictBatch(s: ServerState, decode: Decoder, files: seq<Upload>)
    returns (r: Response<BatchReply>, ghost attempted: nat)
    ensures s.model.None? ==> r == Unavailable(s) && attempted == 0
    ensures s.model.Some? ==>
      (r.Ok? <==> forall i :: 0 <= i < |files| ==> ClassifyFile(s.model.value, decode, files[i]).Done?)
    ensures r.Ok? ==>
      && s.model.Some?
      && attempted == |files|
      && r.body.total == |files| && r.body.processed == |files| && |r.body.results| == |files|
      && forall i :: 0 <= i < |files| ==>
           && r.body.results[i] == ClassifyFile(s.model.value, decode, files[i]).value
           && r.body.results[i].filename == files[i].filename
    ensures s.model.Some? && r.Err? ==>
      && 0 < attempted <= |files|
      && (forall i :: 0 <= i < attempted - 1 ==> ClassifyFile(s.model.value, decode, files[i]).Done?)
      && ClassifyFile(s.model.value, decode, files[attempted - 1]).Raised?
      && r == Err(400, "Batch prediction failed: " + ClassifyFile(s.model.value, decode, files[attempted - 1]).message)
  {
    if s.model.None? {
      return Unavailable(s), 0;
    }
    var m := s.model.value;
    var results: seq<BatchItem> := [];
    attempted := 0;
    var i := 0;
    while i < |files|
      invariant 0 <= i <= |files| && attempted == i && |results| == i
      invariant forall j :: 0 <= j < i ==>
        ClassifyFile(m, decode, files[j]).Done? && results[j] == ClassifyFile(m, decode, files[j]).value
    {
      var file := files[i];
      attempted := attempted + 1;
      var image := decode(file.contents);
      if image.Raised? {
        return Err(400, "Batch prediction failed: " + image.message), attempted;
      }
      var predictions := m.predict(image.value);
      if predictions.Raised? {
        return Err(400, "Batch prediction failed: " + predictions.message), attempted;
      }
      var c := Classify(predictions.value);
      if c.Raised? {
        return Err(400, "Batch prediction failed: " + c.message), attempted;
      }
      results := results + [BatchItem(file.filename, c.value.className, c.value.confidence,
                                      c.value.priority, c.value.description)];
      i := i + 1;
    }
    r := Ok(BatchReply(|results|, |results|, results));
  }

  /** A corrupt second image among three aborts the whole batch before the
      third is read. */
  method CorruptSecondImageAbortsBatch(s: ServerState, decode: Decoder, good: Upload, bad: Upload)
    returns (r: Response<BatchReply>, ghost attempted: nat)
    requires s.model.Some? && decode(bad.contents).Raised?
    requires ClassifyFile(s.model.value, decode, good).Done?
    ensures r == Err(400, "Batch prediction failed: " + decode(bad.contents).message)
    ensures attempted == 2
  {
    var files := [good, bad, good];
    assert ClassifyFile(s.model.value, decode, files[1]) == Raised(decode(bad.contents).message);
    r, attempted := PredictBatch(s, decode, files);
    assert r.Err?;
    assert attempted - 1 == 1 by {
      assert ClassifyFile(s.model.value, decode, files[0]).Done?;
      assert ClassifyFile(s.model.value, decode, files[2]).Done?;
    }
  }

  /** One entry of the `/classes` catalog; `.get` without a default gives
      `None` for a missing key. */
  datatype ClassInfo = ClassInfo(name: string, description: Option<string>, priority: Option<string>)

  /** `/classes`: the labels in table order, each with its own description
      and priority, none of them missing. */
  function GetClasses(): (r: seq<ClassInfo>)
    ensures |r| == |ClassNames|
    ensures forall i :: 0 <= i < |r| ==>
      && r[i].name == ClassNames[i]
      && r[i].description == Some(ClassDescriptions[ClassNames[i]])
      && r[i].priority == Some(ClassPriority[ClassNames[i]])
  {
    TablesCoverClassNames();
    seq(|ClassNames|, i requires 0 <= i < |ClassNames| =>
      ClassInfo(ClassNames[i], Get(ClassDescriptions, ClassNames[i]), Get(ClassPriority, ClassNames[i])))
  }
}
