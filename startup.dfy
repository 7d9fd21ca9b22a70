/** The model-status decision the API makes once, when it starts. */
module ModelStatus {
  import opened Outcomes

  /** The model's input: the normalised image batch, flattened. Producing it
      from bytes is outside this model (see Endpoints.Decoder). */
  type Tensor = seq<real>

  /** A loaded classifier, seen only through `model.predict`, which gives
      `predictions[0]` or raises. */
  datatype Model = Model(predict: Tensor -> Outcome<seq<real>>)

  /** The four values `model_status` takes. */
  datatype Status = NotLoaded | Loaded | LoadError | NotFound

  /** What the outside world answers during startup: whether the artifact
      exists at the resolved path, and how `os.path.getsize`,
      `keras.models.load_model` and `model.count_params` end. */
  datatype Environment = Environment(
    modelPath: string,
    artifactExists: bool,
    artifactSize: Outcome<nat>,
    loaded: Outcome<Model>,
    paramCount: Outcome<nat>)

  /** The three module-level variables `model`, `model_status`, `model_error`. */
  datatype ServerState = ServerState(model: Option<Model>, status: Status, error: Option<string>)

  function NotFoundMessage(path: string): string
  {
    "Model file not found at " + path
  }

  /** Startup exactly as the code runs it: `model` is assigned by
      `load_model` before `count_params()` is called inside the same `try`,
      so a failure there leaves `model` set while the status says ERROR. */
  function StartupAsWritten(env: Environment): (s: ServerState)
    ensures s.status != NotLoaded
    ensures s.status == NotFound <==> !env.artifactExists
    ensures s.status == Loaded <==>
      env.artifactExists && env.artifactSize.Done? && env.loaded.Done? && env.paramCount.Done?
    ensures s.status == Loaded ==> s.model.Some? && s.error.None?
    ensures s.error.Some? <==> s.status != Loaded
    ensures s.model.Some? <==> env.artifactExists && env.artifactSize.Done? && env.loaded.Done?
    ensures s.model.Some? ==> env.loaded.Done? && s.model == Some(env.loaded.value)
    ensures s.status == NotFound ==> s.error == Some(NotFoundMessage(env.modelPath))
    ensures env.artifactExists && env.artifactSize.Raised? ==> s.error == Some(env.artifactSize.message)
    ensures env.artifactExists && env.artifactSize.Done? && env.loaded.Raised? ==>
      s.error == Some(env.loaded.message)
    ensures env.artifactExists && env.artifactSize.Done? && env.loaded.Done? && env.paramCount.Raised? ==>
      s.error == Some(env.paramCount.message)
  {
    if !env.artifactExists then
      ServerState(None, NotFound, Some(NotFoundMessage(env.modelPath)))
    else if env.artifactSize.Raised? then
      ServerState(None, LoadError, Some(env.artifactSize.message))
    else if env.loaded.Raised? then
      ServerState(None, LoadError, Some(env.loaded.message))
    else if env.paramCount.Raised? then
      ServerState(Some(env.loaded.value), LoadError, Some(env.paramCount.message))
    else
      ServerState(Some(env.loaded.value), Loaded, None)
  }

  /** The discrepancy: a model whose `count_params()` raises is kept and
      served although the status is ERROR. */
  lemma AsWrittenKeepsModelOnParamCountFailure(env: Environment)
    requires env.artifactExists && env.artifactSize.Done? && env.loaded.Done? && env.paramCount.Raised?
    ensures StartupAsWritten(env).status == LoadError
    ensures StartupAsWritten(env).model.Some?
    ensures Startup(env).model.None?
  {
  }

  /** Startup as evidently intended: the `except` branch also leaves
      `model` as `None`. A model is kept exactly when the status is LOADED,
      and an error text is kept exactly when it is not. */
  function Startup(env: Environment): (s: ServerState)
    ensures s.status != NotLoaded
    ensures s.status == NotFound <==> !env.artifactExists
    ensures s.status == Loaded <==>
      env.artifactExists && env.artifactSize.Done? && env.loaded.Done? && env.paramCount.Done?
    ensures s.model.Some? <==> s.status == Loaded
    ensures s.error.Some? <==> s.status != Loaded
    ensures s.model.Some? ==> s.model == Some(env.loaded.value)
    ensures s.status == NotFound ==> s.error == Some(NotFoundMessage(env.modelPath))
    ensures env.artifactExists && env.artifactSize.Raised? ==> s.error == Some(env.artifactSize.message)
    ensures env.artifactExists && env.artifactSize.Done? && env.loaded.Raised? ==>
      s.error == Some(env.loaded.message)
    ensures env.artifactExists && env.artifactSize.Done? && env.loaded.Done? && env.paramCount.Raised? ==>
      s.error == Some(env.paramCount.message)
  {
    if !env.artifactExists then
      ServerState(None, NotFound, Some(NotFoundMessage(env.modelPath)))
    else if env.artifactSize.Raised? then
      ServerState(None, LoadError, Some(env.artifactSize.message))
    else if env.loaded.Raised? then
      ServerState(None, LoadError, Some(env.loaded.message))
    else if env.paramCount.Raised? then
      ServerState(None, LoadError, Some(env.paramCount.message))
    else
      ServerState(Some(env.loaded.value), Loaded, None)
  }

  /** The correction changes nothing but the one failing case. */
  lemma StartupDiffersOnlyOnParamCountFailure(env: Environment)
    requires !(env.artifactExists && env.artifactSize.Done? && env.loaded.Done? && env.paramCount.Raised?)
    ensures Startup(env) == StartupAsWritten(env)
  {
  }

  /** The corrected startup block: the source's statements in order (the
      three variables start as `None`, "NOT_LOADED", `None` and are reassigned
      along the branch taken), plus the one correction, `model := None` in the
      `except` branch after `count_params()` raises. */
  method Start(env: Environment) returns (s: ServerState)
    ensures s == Startup(env)
  {
    var model: Option<Model> := None;
    var status := NotLoaded;
    var error: Option<string> := None;
    if env.artifactExists {
      // try:
      if env.artifactSize.Raised? {
        status, error := LoadError, Some(env.artifactSize.message);
      } else if env.loaded.Raised? {
        status, error := LoadError, Some(env.loaded.message);
      } else {
        model := Some(env.loaded.value);
        status := Loaded;
        if env.paramCount.Raised? {
          model := None;  // the correction; absent from the source
          status, error := LoadError, Some(env.paramCount.message);
        }
      }
    } else {
      status := NotFound;
      error := Some(NotFoundMessage(env.modelPath));
    }
    s := ServerState(model, status, error);
  }
}
